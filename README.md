# awita-app core, modelled in Dafny

awita-app is a React dashboard for water tanks. Each tank has a distance sensor. The model covers the parts of the dashboard that compute or change state; rendering is kept only as far as it decides what is shown:

- **`WaterLevel`** (`water_level.dfy`): the conversion of a distance reading and the tank's geometry into a fill percentage and a volume in litres. The percentage is clamped to [0, 100] and both values are rounded to one decimal the way JavaScript's `Math.round` does.
- **`NotificationsPage`** (`notifications_page.dfy`): the notifications page's optimistic updates of three query-cache entries, and the rollback when the server request fails. The entries are the list, the unread count and the last-unread pointer. The cache is a class with those three fields.
- **`NotificationsStore`** and **`AuthStore`**: the two client stores. Each is a class whose actions overwrite its fields; the stores' lists and states are built by pure functions.
- **`SensorsMap`**: the map of sensors. It colours each sensor by its fill band, keeps the sensors with a location, and centres the map on their mean (a summing loop).
- **`PredictionsChart`**: the predictions chart. It parses the selected time range into hours, keeps future points only, maps each to a percentage, and sorts the points by timestamp in place on an array (insertion sort).
- **`EditAlertsDialog`**: the alert-settings dialog. It has the form defaults, validation and the save guard. Its `onSubmit` sends up to three requests one after another and stops at the first failure; the dialog is a class with a log of requests and callbacks.
- **`LocationMapDialog`**: the location picker. It has the dialog's `open`, `tempPosition` and `mapCenter` state, the marker, and the handlers for a click, save, close and new props.
- **`NavUser`**: the user entry in the sidebar. It covers the initials, the display name, and which of the login button, nothing or the menu is shown.
- **`Chart`**: the chart wrappers. The CSS custom properties come from `split(':')` and `trim()`; tooltip rows get their labels and formatting.
- **`Js`** (`js.dfy`) holds the JavaScript notions the modules share: `Option` stands for `null`/`undefined`, and truthiness is defined for numbers and strings.

Server answers and "now" are parameters:

- `succeeds: Request -> bool` says which requests the server accepts;
- the `Fail` method is the `onError` callback;
- `now` is the clock reading.

## Model

| member | source | states |
|---|---|---|
| WaterLevel.MathRound | src/lib/utils.ts:32-33 | `Math.round` gives the integer within half a unit of its argument, rounding halves up |
| WaterLevel.Round1 | src/lib/utils.ts:32-33 | rounding to one decimal yields a whole number of tenths within 0.05 of the input |
| WaterLevel.Round1Monotone | src/lib/utils.ts:32-33 | one-decimal rounding never reverses order |
| WaterLevel.Round1OfOneDecimal | src/lib/utils.ts:32-33 | a value that is already a whole number of tenths is left unchanged by the rounding |
| WaterLevel.ClampedPercentage | src/lib/utils.ts:19-26 | the clamped percentage lies in [0, 100] for every reading |
| WaterLevel.CalculateWaterLevel | src/lib/utils.ts:13-35 | percentage in [0, 100]; volume at least 0 and, for a non-negative capacity, at most the capacity rounded; both outputs whole tenths |
| WaterLevel.EmptyAtOrBelowBottom | src/lib/utils.ts:19-29 | with the full mark above the bottom, a reading at or past the bottom gives 0 % and 0 L |
| WaterLevel.FullAtOrAboveFullMark | src/lib/utils.ts:22-32 | a reading at or above the full mark gives 100 % and the capacity rounded (0 for a negative capacity) |
| WaterLevel.PercentageAntitone | src/lib/utils.ts:19-33 | for a fixed tank a larger reading never gives a larger percentage, nor a larger volume when the capacity is non-negative |
| WaterLevel.VolumeFromUnroundedPercentage | src/lib/utils.ts:29-34 | the volume comes from the unrounded percentage: (200, 150, 20, 60) gives 69.2 % and 138.5 L, not 138.4 L |
| WaterLevel.FullAndEmptyExamples | src/lib/utils.ts:13-35 | a reading at the full mark gives a full tank; at the bottom, an empty one |
| WaterLevel.InvertedGeometryShowsFull | src/lib/utils.ts:19-26 | with the full mark below the bottom, a reading past the bottom shows a full tank, so the empty rule needs `height > waterDistance` |
| NotificationsPage.MarkOne | src/pages/notifications.tsx:80-87 | same length; an entry is read afterwards iff it was read or has the id; nothing but `read` changes |
| NotificationsPage.MarkAll | src/pages/notifications.tsx:51-55 | same length; every entry read; nothing but `read` changes |
| NotificationsPage.MapList | src/pages/notifications.tsx:53-55 | an absent list stays absent (`old?.map`); a present one is marked |
| NotificationsPage.CountUnread | src/pages/notifications.tsx:89-96 | the number of unread entries never exceeds the list's length |
| NotificationsPage.FirstUnread | src/pages/notifications.tsx:99-110 | nothing iff every entry is read; otherwise the first unread entry in list order |
| NotificationsPage.FindUnreadExcept | src/pages/notifications.tsx:102-109 | the first entry in list order that is unread and has another id, or nothing iff there is none |
| NotificationsPage.DecrementCount | src/pages/notifications.tsx:89-96 | the count drops by one when above 0, stays otherwise, and so never becomes negative |
| NotificationsPage.UpdatedLastUnread | src/pages/notifications.tsx:99-110 | the pointer changes only when it points at the marked id, and then to the next unread entry with another id |
| NotificationsPage.AfterMarkAll | src/pages/notifications.tsx:51-57 | count 0, pointer null, every entry read, and an absent list stays absent |
| NotificationsPage.AfterFailure | src/pages/notifications.tsx:59-70 | the list is restored to the snapshot when there is one (without one it stays as it is, since writing `undefined` leaves the entry alone); count and pointer keep their optimistic values |
| NotificationsPage.MarkAllEnabled | src/pages/notifications.tsx:127-131 | the mark-all button is enabled iff some rendered entry is unread |
| NotificationsPage.UnreadCountPositive | src/pages/notifications.tsx:127-131 | the unread count is positive iff some entry is unread |
| NotificationsPage.CountAfterMarkOne | src/pages/notifications.tsx:80-96 | marking an id removes exactly the unread entries with that id from the count |
| NotificationsPage.SingleUnreadWithId | src/pages/notifications.tsx:80-96 | with distinct ids, an unread entry is the only unread one with its id |
| NotificationsPage.NoneWithId | src/pages/notifications.tsx:80-96 | an id that no entry carries counts no unread entries |
| NotificationsPage.FirstUnreadAfterMarkOne | src/pages/notifications.tsx:99-110 | after marking an id, the first unread entry is the first unread one with another id before the mark |
| NotificationsPage.FindSkipsOtherId | src/pages/notifications.tsx:99-110 | when the first unread entry has another id, skipping the id finds the same entry |
| NotificationsPage.AllReadCountsZero | src/pages/notifications.tsx:51-57 | a list with every entry read has no unread entries |
| NotificationsPage.MarkAsReadPreservesConsistency | src/pages/notifications.tsx:73-110 | when the caches agree with a list of distinct ids, marking an unread entry keeps them in agreement and lowers the count by one |
| NotificationsPage.MarkAllMakesConsistent | src/pages/notifications.tsx:46-57 | after mark-all the three caches agree |
| NotificationsPage.FailedMarkAsReadLeavesCountStale | src/pages/notifications.tsx:73-121 | after a failed mark-as-read the list is back, but the count stays one lower and the caches no longer agree |
| NotificationsPage.NotificationCache.HandleMarkAsRead | src/pages/notifications.tsx:73-122 | an entry already read changes nothing and sends nothing; otherwise the list is marked, the count decremented and the pointer moved, and the request carries the list snapshot |
| NotificationsPage.NotificationCache.HandleMarkAllAsRead | src/pages/notifications.tsx:46-71 | every entry read, count 0, pointer null; the request carries the snapshot |
| NotificationsPage.NotificationCache.Fail | src/pages/notifications.tsx:59-70 | `onError` writes the snapshot back into the list, leaves the list as it is when there was none, and leaves the other two entries |
| NotificationsStore.InitialNotifications | src/stores/NotificationsStore.ts:16-29 | two unread entries with ids "1" and "2", stamped with the creation time |
| NotificationsStore.MarkedRead | src/stores/NotificationsStore.ts:30-35 | same length and order; entries with the id are read, the others unchanged; id, title and timestamp never change |
| NotificationsStore.MarkedReadIdempotent | src/stores/NotificationsStore.ts:30-35 | marking an id twice is marking it once |
| NotificationsStore.MarkedReadAbsentId | src/stores/NotificationsStore.ts:32-34 | an id no entry carries leaves the list unchanged |
| NotificationsStore.MarkedReadCommutes | src/stores/NotificationsStore.ts:32-34 | marking two ids gives the same list in either order |
| NotificationsStore.Store.constructor | src/stores/NotificationsStore.ts:15-29 | the store starts with the seed list |
| NotificationsStore.Store.MarkAsRead | src/stores/NotificationsStore.ts:30-35 | the store's list is replaced by the marked copy |
| AuthStore.NormalizeUserId | src/stores/AuthStore.ts:20 | `userId \|\| null`: null iff the id is missing or empty; otherwise the id unchanged |
| AuthStore.SetAuthState | src/stores/AuthStore.ts:19-20 | both flags stored as given and the id normalised, whatever the prior state |
| AuthStore.Store.constructor | src/stores/AuthStore.ts:15-18 | null id, not signed in, not loaded |
| AuthStore.Store.SetAuth | src/stores/AuthStore.ts:19-20 | all three fields overwritten with the normalised arguments |
| AuthStore.Store.Reset | src/stores/AuthStore.ts:21 | back to the initial state from any state |
| SensorsMap.WaterLevelColor | src/components/sensors/sensors-map.tsx:180-186 | each of the five bands, upper bounds inclusive, iff the percentage lies in it |
| SensorsMap.ColorMonotone | src/components/sensors/sensors-map.tsx:180-186 | a fuller tank never gets a lower band |
| SensorsMap.HexInjective | src/components/sensors/sensors-map.tsx:181-185 | the five bands have five distinct colours |
| SensorsMap.SensorColor | src/components/sensors/sensors-map.tsx:158-159 | a sensor without a water level is coloured as 0 %, red |
| SensorsMap.SensorsWithLocation | src/components/sensors/sensors-map.tsx:78-80 | keeps exactly the sensors with both coordinates truthy, so a 0 coordinate excludes a sensor |
| SensorsMap.FilterAppend | src/components/sensors/sensors-map.tsx:78-80 | the filter keeps order: filtering a concatenation is concatenating the filtered parts |
| SensorsMap.Center | src/components/sensors/sensors-map.tsx:113-124 | the summing loop returns the mean latitude and the mean longitude |
| SensorsMap.SumLatitudesBounds | src/components/sensors/sensors-map.tsx:113-124 | the latitude sum of n sensors in [lo, hi] lies in [n·lo, n·hi] |
| SensorsMap.SumLongitudesBounds | src/components/sensors/sensors-map.tsx:113-124 | the same for longitudes |
| SensorsMap.CenterInsideBox | src/components/sensors/sensors-map.tsx:113-124 | the centre lies inside any box that holds every located sensor |
| SensorsMap.Render | src/components/sensors/sensors-map.tsx:78-172 | loading before mount; a placeholder when no sensor is located; otherwise the mean centre and one marker per located sensor in its band's colour |
| PredictionsChart.LeadingDigits | src/components/dashboard/predictions-chart.tsx:40 | the longest prefix made only of digits |
| PredictionsChart.ParseInt | src/components/dashboard/predictions-chart.tsx:40 | NaN iff the text does not start with a digit |
| PredictionsChart.Hours | src/components/dashboard/predictions-chart.tsx:26-40 | '12h', '24h' and '48h' request 12, 24 and 48 hours |
| PredictionsChart.LabelParses | src/components/dashboard/predictions-chart.tsx:26-40 | `parseInt` reads each range's label as its number of hours |
| PredictionsChart.FuturePoints | src/components/dashboard/predictions-chart.tsx:58-59 | keeps exactly the points after now, and no more points than it is given |
| PredictionsChart.FuturePointsAppend | src/components/dashboard/predictions-chart.tsx:58-59 | filtering a concatenation concatenates the filtered parts, so order and multiplicity are kept |
| PredictionsChart.FuturePointsSingleton | src/components/dashboard/predictions-chart.tsx:58-59 | one point is kept, once, exactly when it lies after now |
| PredictionsChart.ToChartPoint | src/components/dashboard/predictions-chart.tsx:60-94 | keeps the timestamp; `nivel` is the computed percentage with `height ?? 0` and `water_distance ?? 0`, in [0, 100] |
| PredictionsChart.ChartPoints | src/components/dashboard/predictions-chart.tsx:60-94 | one chart point per prediction, in order |
| PredictionsChart.InsertAt | src/components/dashboard/predictions-chart.tsx:97 | moving one element back into a sorted prefix keeps the prefix sorted and the elements the same |
| PredictionsChart.SortByTimestamp | src/components/dashboard/predictions-chart.tsx:97 | the array ends sorted by timestamp and holds the same points |
| PredictionsChart.SortedChartData | src/components/dashboard/predictions-chart.tsx:58-97 | undefined iff the predictions are; otherwise sorted, a permutation of the mapped future points, no longer than the input, each point after now with `nivel` in [0, 100] |
| PredictionsChart.ReferencePoint | src/components/dashboard/predictions-chart.tsx:207 | nothing for no data; otherwise a point of the data, the earliest when the data is sorted |
| EditAlertsDialog.FieldsOf | src/components/sensors/edit-alerts-dialog.tsx:62-64 | a sensor not loaded has none of its fields |
| EditAlertsDialog.FormDefaults | src/components/sensors/edit-alerts-dialog.tsx:61-65 | each flag is on iff the sensor's is; the threshold is the sensor's, or 20 when it has none |
| EditAlertsDialog.PlannedRequestsContents | src/components/sensors/edit-alerts-dialog.tsx:72-85 | the threshold update is planned iff the threshold differs, each toggle iff its flag differs, all for this sensor, in the order threshold, water level, disconnection |
| EditAlertsDialog.DispatchStopsAtFirstFailure | src/components/sensors/edit-alerts-dialog.tsx:70-95 | what is sent is a prefix of the plan; all but the last sent succeeded; success iff the whole plan was sent and every request succeeded; otherwise the last one sent failed |
| EditAlertsDialog.View | src/components/sensors/edit-alerts-dialog.tsx:98-138 | nothing while the sensor is not loaded; the threshold input only while the water-level alert is on; save enabled iff dirty and not submitting |
| EditAlertsDialog.SentAll | src/components/sensors/edit-alerts-dialog.tsx:72-85 | one send event per request, in order |
| EditAlertsDialog.SentAllCons | src/components/sensors/edit-alerts-dialog.tsx:72-85 | the events of a plan are those of its head and then of its rest |
| EditAlertsDialog.DispatchStep | src/components/sensors/edit-alerts-dialog.tsx:72-85 | the head of a plan is sent first, and the rest only if the head succeeds |
| EditAlertsDialog.SendStep | src/components/sensors/edit-alerts-dialog.tsx:72-95 | how one sent request advances the submission's events and outcome |
| EditAlertsDialog.Dialog.constructor | src/components/sensors/edit-alerts-dialog.tsx:48 | the dialog starts closed with nothing sent |
| EditAlertsDialog.Dialog.SetOpen | src/components/sensors/edit-alerts-dialog.tsx:103 | `onOpenChange` sets `open` only |
| EditAlertsDialog.Dialog.Send | src/components/sensors/edit-alerts-dialog.tsx:73-84 | one request is logged; the answer is the server's |
| EditAlertsDialog.Dialog.SendIfChanged | src/components/sensors/edit-alerts-dialog.tsx:72-85 | one guarded stage of `onSubmit`, stated as its part of the whole submission |
| EditAlertsDialog.Dialog.OnSubmit | src/components/sensors/edit-alerts-dialog.tsx:70-96 | the log grows by the planned requests up to the first failure, then `onUpdate` only when all succeeded and it is passed; the dialog closes only when all succeeded |
| EditAlertsDialog.Dialog.Submit | src/components/sensors/edit-alerts-dialog.tsx:155-172 | a save that is disabled, or a form that fails validation, changes nothing; otherwise the log grows by the submission's events and the dialog closes iff every request succeeded, staying as it was otherwise |
| LocationMapDialog.PropsPosition | src/components/sensors/location-map-dialog.tsx:137-138 | a position iff both props are truthy, so a 0 coordinate is ignored |
| LocationMapDialog.Picker.constructor | src/components/sensors/location-map-dialog.tsx:127-133 | closed, no temporary position, centred on (19.4326, -99.1332), no marker |
| LocationMapDialog.Picker.SyncProps | src/components/sensors/location-map-dialog.tsx:136-142 | runs on mount or when a coordinate prop changes (not on a re-render with the same props); truthy props become the temporary position and the centre; otherwise nothing changes |
| LocationMapDialog.Picker.HandleMapClick | src/components/sensors/location-map-dialog.tsx:167-177 | the click becomes the temporary position and the centre; without a save button it is also reported and the dialog closes |
| LocationMapDialog.Picker.HandleSave | src/components/sensors/location-map-dialog.tsx:179-184 | with a temporary position it is reported and the dialog closes; otherwise nothing changes |
| LocationMapDialog.Picker.HandleOpenChange | src/components/sensors/location-map-dialog.tsx:186-195 | closing restores truthy props as position and centre, otherwise an unsaved click survives; `open` becomes the new value |
| LocationMapDialog.Picker.Marker | src/components/sensors/location-map-dialog.tsx:60-69 | the marker is at the temporary position, and absent when it is |
| LocationMapDialog.ClickThenCancel | src/components/sensors/location-map-dialog.tsx:167-195 | with a save button and truthy props, a click then a close puts the picker back on the props and reports nothing |
| LocationMapDialog.ClickThenSave | src/components/sensors/location-map-dialog.tsx:167-184 | with a save button, a click then save reports the clicked point once and closes |
| NavUser.Initials | src/components/nav-user.tsx:48-51 | 1 or 2 characters; both names' first letters when both are non-empty; else the username's first letter, or "U" |
| NavUser.FirstChar | src/components/nav-user.tsx:51 | `s?.[0]` exists iff the string is present and non-empty |
| NavUser.DisplayName | src/components/nav-user.tsx:73 | the full name unless null or undefined (an empty one is kept), else the username |
| NavUser.View | src/components/nav-user.tsx:32-51 | login button iff loaded without a user; nothing iff not loaded; the menu otherwise, with the initials and the name |
| Chart.Split | src/components/ui/chart.tsx:32 | at least one piece; exactly one iff the separator is absent; no piece contains it |
| Chart.JoinSplit | src/components/ui/chart.tsx:32 | joining the pieces with the separator gives the string back |
| Chart.SplitAtFirst | src/components/ui/chart.tsx:32 | the first piece is the text before the first separator |
| Chart.SplitWithout | src/components/ui/chart.tsx:32 | a string without the separator is its own only piece |
| Chart.TrimStart | src/components/ui/chart.tsx:32 | a suffix that starts with no white space, after dropping only white space |
| Chart.TrimEnd | src/components/ui/chart.tsx:32 | a prefix that ends with no white space, after dropping only white space |
| Chart.Trim | src/components/ui/chart.tsx:32 | no white space at either end, no longer than the input, and empty for a string of white space only |
| Chart.TrimKeepsMiddle | src/components/ui/chart.tsx:32 | text with no white space at its ends, surrounded by white space, trims to itself |
| Chart.StyleOf | src/components/ui/chart.tsx:23-25 | every style string holds a ':', so `split(':')[1]` exists |
| Chart.Styles | src/components/ui/chart.tsx:23-25 | one style per config entry, in entry order |
| Chart.StyleMap | src/components/ui/chart.tsx:29-35 | a property is set iff some style names it; at most one property per style |
| Chart.LastStyleWins | src/components/ui/chart.tsx:29-35 | a property takes the value of the last style that names it |
| Chart.EntryValue | src/components/ui/chart.tsx:23-35 | an entry with a colon-free key, not repeated later, sets `--color-<key>` to the trimmed part of its colour before the first ':' |
| Chart.ColonFreeEntry | src/components/ui/chart.tsx:23-35 | with a colon-free key and colour, not repeated later, `--color-<key>` is the trimmed colour |
| Chart.ColonInColourTruncates | src/components/ui/chart.tsx:32 | a colour holding a ':' is cut at it |
| Chart.ColonFreeConfig | src/components/ui/chart.tsx:23-35 | with colon-free keys and colours and distinct keys, every entry's property is its trimmed colour |
| Chart.Lookup | src/components/ui/chart.tsx:78 | an entry with the series' key iff the config has one |
| Chart.RowOf | src/components/ui/chart.tsx:77-95 | the configured label and colour, else the series name and no colour; the formatter's text, else the raw value |
| Chart.TooltipContent | src/components/ui/chart.tsx:66-98 | nothing unless active with a payload; otherwise one row per payload item, in order |
| Chart.ChartTooltip | src/components/ui/chart.tsx:104-111 | every row's value is the number's text followed by "%" |

## Left out

- HTTP and the query library: the mutations, the refetching, and the cache-key invalidation after a successful request. Server answers are the parameter `succeeds` together with the `Fail` method.
- Toasts, `console` output, icons, styling and the Leaflet map itself are left out: the tiles, `setView`, `invalidateSize`, `fitBounds` and the locate control. So is the browser's geolocation, which only moves `mapCenter` when the dialog opens with no temporary position.
- The clock and locale: every `new Date()` read is the one parameter `now`, so a single instant stands for all of them: the two seed timestamps of `NotificationsStore.InitialNotifications` and the per-point reads of the future filter in `PredictionsChart.FuturePoints`. Timestamps are integer milliseconds. The `toLocaleString` labels are left out, so `ReferencePoint` returns the earliest point, not its time label.
- WaterLevel.CalculateWaterLevel: requires `height != waterDistance`. JavaScript divides by zero there and yields NaN or ±Infinity, an IEEE behaviour the model over reals does not have. This case is reachable from the chart when the sensor has no height or water distance.
- PredictionsChart.SortedChartData: requires non-degenerate geometry whenever some point is in the future, for the same reason.
- Numbers are reals: rounding follows `Math.round`, but binary floating-point error is not modelled.
- PredictionsChart.SortByTimestamp: `Array.prototype.sort` is specified as sorted and a permutation. Stability, which JavaScript guarantees, is not stated.
- PredictionsChart.ParseInt: covers unsigned decimal text only. Leading white space, signs and radix prefixes are not modelled; the labels parsed never have them.
- The notification list order is the server's order, as rendered. The next-unread pointer follows that order (`notifications.find`), not a sort by creation date.
- NotificationsPage.NotificationCache.Fail: restores only the list, as the code does. A reading that rolls back all three cache entries would not match the code. `FailedMarkAsReadLeavesCountStale` shows the stale count and pointer that result.
- EditAlertsDialog: the form's default values are read once, on the first render. Later loads of the sensor do not reset the form, and `FormDefaults` is that first computation.
- EditAlertsDialog.PassesValidation: the rules of the threshold input apply only while that input is rendered, that is, while the water-level alert is on. A hidden, out-of-range threshold is still submitted.
- EditAlertsDialog.Dialog.OnSubmit: an exception thrown by `onUpdate` itself is not modelled.
- Chart: `Object.entries` lists integer-like keys first. The model takes the config in the order given.
- Chart.Lookup: `config?.[name]` can also find inherited properties such as `constructor`. The model looks at the entries only.
- Chart.IsWhitespace: covers the common white-space and line-terminator characters. The other Unicode space separators that `trim()` also removes are not included.
- NavUser: strings are sequences of characters. `firstName[0]` takes one UTF-16 unit in JavaScript, and the model does not split surrogate pairs.
