# Sentinel alert core, modelled in Dafny

Sentinel is a dashboard for mock monitoring alerts. This project models the parts of it that hold logic:

- **Records.** Alert rules, alert events, and the `AlertOutput` result that every trigger returns. Default field values work as in the original: a field left out of a constructor call takes its default (`models.dfy`).
- **Triggers.** Six trigger checks (CPU usage, price surge, memory leak, volume spike, health check, workflow deployment). Each one is a pure function from a parameter map and one sampled measurement to an `AlertOutput`, with its default parameters (one file per trigger).
- **Rule and event bookkeeping** (`alert_state.dfy`):
  - the persisted rule and event tables, as a `Store` class with sequence fields and id counters;
  - seeding an empty rule table;
  - loading both tables into the dashboard state, with its four counters;
  - the mock alert sweep over the active rules.
- **UI flags.** The sidebar and dark-mode flags and their three handlers (`ui_state.dfy`).

Randomness, clocks and foreign code become inputs:

- Each trigger's random draw is a parameter, restricted to the range the original draws it from.
- The mock sweep takes, for each active rule in order, the `random()` roll (compared with 0.4) and the `randint(1, 20)` draw.
- The current time (`utcnow`) is a parameter: one `now` per sweep, or the already formatted timestamp string for a trigger.
- A fresh `uuid4` run id is a parameter.
- JSON decoding is a function-valued parameter `decode: string -> Option<Value>`, where `None` stands for a decoding error.

Parameter maps are maps from names to a JSON-like `Value`. `params.get(k, d)` is `Get`, and `float(...)` is `ToFloat` (numbers, and booleans as 1.0/0.0). Alert messages are sequences of literal text and shown values, in the order of the original f-strings.

The modelled code has no retention policy, history paging, workflow synchronisation or rule create/clone/delete commands, and its rules carry no category, display duration or trigger script; none of these is in the model.

## Model

| member | source | states |
|---|---|---|
| `Models.NewRuleDefaults` | app/models.py:6-16 | a rule given only its (required) name has no id, parameters "{}", importance "medium", period 60 s, action config "{}", no comment, and is active |
| `Models.NewEventDefaults` | app/models.py:19-30 | an event given its required rule id, timestamp, message and importance has no id, is unacknowledged, and has no acknowledgement time, action or comment |
| `Values.Get` | app/alert_triggers/cpu_usage_trigger.py:18 | `params.get(key, fallback)`: the stored value when the key is present, the fallback otherwise |
| `Values.FloatParam` | app/alert_triggers/cpu_usage_trigger.py:19 | `float(params.get(key, fallback))`: the fallback when missing, the number when a number is stored, 1.0/0.0 for a stored boolean |
| `Values.Decimal` | app/states/alert_state.py:132 | the decimal text of a count: at least one digit, all digits, no leading zero, a single digit exactly for counts below 10 |
| `Values.DecimalValue` | app/states/alert_state.py:132 | reading the printed digits back, most significant first, gives the count that was printed |
| `Values.DecimalInjective` | app/states/alert_state.py:132 | different counts print as different text |
| `CpuUsageTrigger.DefaultParams` | app/alert_triggers/cpu_usage_trigger.py:14-15 | exactly the keys `server` and `threshold`; the check accepts them, reading server "PROD-DB-01" and threshold 90 |
| `CpuUsageTrigger.Check` | app/alert_triggers/cpu_usage_trigger.py:17-30 | fires exactly when the sampled load strictly exceeds the threshold (90 when missing); importance is "critical" exactly when the load exceeds 95, else "high"; the ticker is the `server` parameter ("localhost" when missing); metadata records the load; the message shows the server, the load and the threshold |
| `CpuUsageTrigger.HighThresholdNeverTriggers` | app/alert_triggers/cpu_usage_trigger.py:20-21 | since the load is at most 100, a threshold of 100 or more never fires |
| `CpuUsageTrigger.LowThresholdAlwaysTriggers` | app/alert_triggers/cpu_usage_trigger.py:20-21 | since the load is at least 10, a threshold below 10 always fires |
| `CpuUsageTrigger.ImportanceIgnoresThreshold` | app/alert_triggers/cpu_usage_trigger.py:21-22 | importance depends on the load alone, not on the threshold; a load of exactly 95 is "high" |
| `CpuUsageTrigger.Fallbacks` | app/alert_triggers/cpu_usage_trigger.py:14-19 | an empty map checks "localhost" against 90; the default parameters check "PROD-DB-01" against 90 |
| `PriceSurgeTrigger.DefaultParams` | app/alert_triggers/price_surge_trigger.py:14-15 | exactly the keys `ticker` and `threshold`; the check accepts them, reading ticker "AAPL" and threshold 150.0 |
| `PriceSurgeTrigger.Check` | app/alert_triggers/price_surge_trigger.py:17-29 | importance is always "high"; the ticker is the `ticker` parameter ("UNKNOWN" when missing); the reported price is the threshold (100.0 when missing) plus the drawn delta; fires exactly when that price exceeds the threshold; metadata records both, and the message shows the ticker, the price and the threshold |
| `PriceSurgeTrigger.TriggeredIffDeltaPositive` | app/alert_triggers/price_surge_trigger.py:19-21 | in exact arithmetic the check fires exactly when the drawn delta is positive, and the price lies within [threshold - 10, threshold + 20] |
| `PriceSurgeTrigger.FallbacksDifferFromDefaults` | app/alert_triggers/price_surge_trigger.py:14-19 | a missing threshold means 100.0 and a missing ticker "UNKNOWN", but the default parameters carry 150.0 and "AAPL", so the two reported thresholds differ |
| `MemoryLeakTrigger.DefaultParams` | app/alert_triggers/memory_leak_trigger.py:14-15 | exactly the keys `service` and `limit_mb`; the check accepts them, reading service "api-gateway" and limit 512 |
| `MemoryLeakTrigger.Check` | app/alert_triggers/memory_leak_trigger.py:17-29 | importance is always "medium"; the ticker is the `service` parameter ("unknown" when missing); the memory used is the limit (512 when missing) times the drawn factor; fires exactly when it exceeds the limit; metadata records both, and the message shows the service, the usage and the limit |
| `MemoryLeakTrigger.TriggeredIffFactorAboveOne` | app/alert_triggers/memory_leak_trigger.py:19-21 | for a positive limit it fires exactly when the factor exceeds 1; a negative limit inverts this; a zero limit never fires |
| `MemoryLeakTrigger.Fallbacks` | app/alert_triggers/memory_leak_trigger.py:14-19 | an empty map watches "unknown" against 512 MB; the default parameters watch "api-gateway" against 512 MB |
| `VolumeSpikeTrigger.Truncate` | app/alert_triggers/volume_spike_trigger.py:29 | `int(x)` truncates toward zero: the result is within 1 of x, on the zero side |
| `VolumeSpikeTrigger.DefaultParams` | app/alert_triggers/volume_spike_trigger.py:14-15 | exactly the keys `ticker`, `avg_volume` and `threshold_percent`; the check can run on them, reading "NVDA", an average of 1000000 and a 200% threshold |
| `VolumeSpikeTrigger.Check` | app/alert_triggers/volume_spike_trigger.py:17-32 | importance is always "medium"; the ticker is the `ticker` parameter ("UNKNOWN" when missing); the current volume is the average times the factor; fires exactly when the reported percentage exceeds the threshold (200 when missing); the message shows the ticker, the truncated volume and the percentage; a zero average is excluded because the percentage divides by it |
| `VolumeSpikeTrigger.PercentIsFactor` | app/alert_triggers/volume_spike_trigger.py:21-24 | the average cancels out: the percentage is factor × 100, so the check fires exactly when factor × 100 exceeds the threshold |
| `VolumeSpikeTrigger.ThresholdExtremes` | app/alert_triggers/volume_spike_trigger.py:21-24 | with the factor in [0.5, 3.5], a threshold of 350 or more never fires and one below 50 always fires |
| `VolumeSpikeTrigger.Fallbacks` | app/alert_triggers/volume_spike_trigger.py:14-20 | an empty map and the default parameters both fire exactly when the factor exceeds 2; their tickers are "UNKNOWN" and "NVDA" |
| `HealthCheckTrigger.DefaultParams` | app/alert_triggers/health_check_trigger.py:14-15 | exactly the keys `service` and `endpoint`, read by the check as "Auth-API" and its health URL |
| `HealthCheckTrigger.Status` | app/alert_triggers/health_check_trigger.py:22 | the status is "Healthy" exactly when healthy and "Unhealthy" exactly when not |
| `HealthCheckTrigger.Check` | app/alert_triggers/health_check_trigger.py:17-35 | always fires; importance is "low" exactly when healthy and "critical" exactly when not; the message is "Health Check for {service} ({endpoint}): {status}"; metadata holds status, health flag and endpoint |
| `HealthCheckTrigger.MetadataAgrees` | app/alert_triggers/health_check_trigger.py:21-33 | the metadata's health flag, its status text, the importance and the message's last piece all agree |
| `HealthCheckTrigger.Fallbacks` | app/alert_triggers/health_check_trigger.py:14-19 | an empty map reports on "unknown" at "localhost"; the default parameters report on "Auth-API" at its health URL |
| `PrefectDeploymentTrigger.DefaultParams` | app/alert_triggers/prefect_deployment_trigger.py:15-20 | exactly the keys `deployment_id`, `flow_name` and `parameters`, read as "dep-12345678", "data-pipeline-daily" and an empty parameter object |
| `PrefectDeploymentTrigger.Check` | app/alert_triggers/prefect_deployment_trigger.py:22-48 | fires exactly when the invocation succeeded. On success: importance "medium", message "Triggered Flow: {flow_name}", metadata with the deployment id, the fresh run id and state "SCHEDULED". On failure: importance "low", message "Failed to trigger {flow_name}", empty metadata. The ticker is always "PREFECT" |
| `PrefectDeploymentTrigger.RunLinkage` | app/alert_triggers/prefect_deployment_trigger.py:23-37 | an output carries a flow run id exactly when it fired, with the SCHEDULED initial state; a missing deployment id is carried through as null |
| `PrefectDeploymentTrigger.Fallbacks` | app/alert_triggers/prefect_deployment_trigger.py:15-24 | a missing flow name is "Unknown Flow"; the default parameters name "data-pipeline-daily" and "dep-12345678" and carry an empty parameter object |
| `UIStates.Toggled` | app/states/ui_state.py:11-12 | toggling negates the sidebar flag and keeps dark mode |
| `UIStates.Closed` | app/states/ui_state.py:15-16 | closing clears the sidebar flag and keeps dark mode |
| `UIStates.WithDarkMode` | app/states/ui_state.py:19-20 | setting dark mode stores the given value and keeps the sidebar flag |
| `UIStates.ToggleTwice` | app/states/ui_state.py:11-12 | toggling twice restores the original flags |
| `UIStates.CloseIdempotent` | app/states/ui_state.py:15-16 | closing twice equals closing once, and closing after a toggle equals closing |
| `UIStates.DarkModeIdempotent` | app/states/ui_state.py:19-20 | setting the same value twice equals setting it once; only the last value set counts; setting the current value changes nothing |
| `UIStates.HandlersCommute` | app/states/ui_state.py:11-20 | each handler changes only its own flag, so sidebar handlers and the dark-mode handler commute |
| `UIStates.UIState.constructor` | app/states/ui_state.py:7-8 | both flags start false |
| `UIStates.UIState.ToggleSidebar` | app/states/ui_state.py:11-12 | the new flags are the toggled old flags |
| `UIStates.UIState.CloseSidebar` | app/states/ui_state.py:15-16 | the new flags are the closed old flags |
| `UIStates.UIState.ToggleDarkMode` | app/states/ui_state.py:18-21 | the new flags are the old flags with dark mode set to the given value |
| `AlertStates.Filter` | app/states/alert_state.py:91-95 | a comprehension keeps exactly the elements that satisfy the condition, and never more than the list holds |
| `AlertStates.FilterCountPermutation` | app/states/alert_state.py:87-95 | counting by a condition gives the same number on any reordering, so counters computed on the sorted event list count the table |
| `AlertStates.SortNewestFirst` | app/states/alert_state.py:87-89 | the loaded events are ordered by timestamp, newest first, and are a permutation of the table |
| `AlertStates.Store.AddRules` | app/states/alert_state.py:78-79 | storing rules appends them with fresh, increasing ids and keeps every existing row |
| `AlertStates.Store.AddEvents` | app/states/alert_state.py:127-129 | storing events appends them with fresh, increasing ids and keeps every existing row |
| `AlertStates.SeedRules` | app/states/alert_state.py:28-77 | four unsaved rules (no id): "High CPU Usage", "Memory Leak Warning", "Low Disk Space", "API Latency Spike", with importances high/medium/critical/low and periods 300/600/3600/60 s; only the last is inactive |
| `AlertStates.SeedIfEmpty` | app/states/alert_state.py:24-79 | the rule table after seeding is never empty, and a non-empty table is left unchanged |
| `AlertStates.SeedingEmptyTable` | app/states/alert_state.py:28-77 | seeding an empty table gives exactly 4 rules with fresh increasing ids; 3 are active, and "API Latency Spike" is the inactive one |
| `AlertStates.SeedIdempotent` | app/states/alert_state.py:24-79 | seeding a second time adds nothing |
| `AlertStates.MockReading` | app/states/alert_state.py:108-113 | ticker, metric and threshold default to "UNKNOWN", "unknown_metric" and 0; the reported value is the threshold plus the draw, so it strictly exceeds the threshold by at most 20 |
| `AlertStates.MockMessage` | app/states/alert_state.py:113 | the message is "Alert triggered for " ticker ": " metric " is " value " (Threshold: " threshold ")": the reading's four parts, in that order, between those literal pieces |
| `AlertStates.MockMessageDeterminesReading` | app/states/alert_state.py:113 | two readings with the same message are the same reading |
| `AlertStates.MockEvent` | app/states/alert_state.py:106-121 | a rule yields an event exactly when its roll is below 0.4 and its parameters decode; the event copies the rule's id and importance, is unacknowledged, has no id yet, is stamped `now`, and its message is that of the reading drawn from the decoded parameters |
| `AlertStates.MockSweep` | app/states/alert_state.py:104-126 | a sweep creates at most as many events as there are active rules |
| `AlertStates.SweepActive` | app/states/alert_state.py:104-126 | the loop over the active rules builds exactly the events the sweep specifies |
| `AlertStates.SweepEventsFromRules` | app/states/alert_state.py:114-120 | every swept event is new, unacknowledged and stamped `now`, and copies the id and importance of one of the swept rules |
| `AlertStates.AtMostOnePerRule` | app/states/alert_state.py:105-121 | with distinct rule ids, no rule id appears on more than one swept event |
| `AlertStates.FilterKeepsKeyed` | app/states/alert_state.py:101-103 | selecting rules from a table with fresh increasing ids keeps the ids fresh and increasing |
| `AlertStates.ActiveRulesDistinct` | app/states/alert_state.py:101-103 | the active rules of a stored table have distinct ids |
| `AlertStates.SweepRuleIdsDistinct` | app/states/alert_state.py:105-121 | with distinct rule ids, the events of one sweep carry pairwise distinct rule ids |
| `AlertStates.OneEventPerRule` | app/states/alert_state.py:101-129 | storing a sweep over the active rules of a stored table adds at most one event per rule |
| `AlertStates.SweepAppend` | app/states/alert_state.py:105-126 | rules are swept independently: a sweep over two runs of rules is the two sweeps concatenated |
| `AlertStates.SweepSkipsUndecodable` | app/states/alert_state.py:107-126 | a rule whose parameters fail to decode contributes no event, and the rules after it are still swept |
| `AlertStates.SweptEventsUnacknowledged` | app/states/alert_state.py:114-120 | storing a sweep's events adds exactly that many unacknowledged events to the table |
| `AlertStates.MockToast` | app/states/alert_state.py:131-134 | "No alerts generated this time." for no event; otherwise "Generated " + the count in decimal + " new mock alerts." |
| `AlertStates.ToastDeterminesCount` | app/states/alert_state.py:131-134 | different counts give different toasts |
| `AlertStates.AlertState.constructor` | app/states/alert_state.py:14-19 | the dashboard starts with empty lists and zero counters |
| `AlertStates.AlertState.LoadData` | app/states/alert_state.py:82-95 | the state shows the rule table and the event table newest first. The counters are the number of rules, of active rules, of events and of unacknowledged events. Active ≤ total for both rules and events, and the unacknowledged count is that of the table |
| `AlertStates.AlertState.InitializeDb` | app/states/alert_state.py:21-80 | the rule table is seeded only if it was empty; events and the event id counter are untouched, the rule id counter advances by the number of seeded rules, ids stay fresh and increasing, and the data is then loaded |
| `AlertStates.AlertState.GenerateMockAlerts` | app/states/alert_state.py:97-134 | rules and the rule id counter are untouched. The event id counter advances by the number of events added. The event table only grows, by the swept events with fresh ids. At most as many events are added as there are active rules, and no two added events share a rule id. The unacknowledged count grows by exactly the number added. The toast reports that number, or says that none was generated |

## Left out

- Random draws, `uuid4` and `utcnow` are inputs rather than behaviour. The model does not say how likely any outcome is.
- Database sessions, commits and the ORM. The tables are sequences in `Store`. Ids come from a counter that starts at 1, which stands in for the database's key assignment.
- Ordering of events with equal timestamps. `SortNewestFirst` keeps table order among equal timestamps. The database's `ORDER BY timestamp DESC` leaves that order unspecified.
- GenerateMockAlerts: every event of one sweep is stamped with the same `now`. The original reads the clock once per event.
- GenerateMockAlerts: the `random()` roll and the `randint` draw are given per active rule. The original draws `randint` only for rules that pass the roll and decode, so the draw stream is consumed differently; each draw is still uniform in [1, 20].
- GenerateMockAlerts: decoded parameters that are not an object, or whose `threshold` is not a number, make the original raise out of the whole sweep. Only decoding errors are caught. The model requires well-formed parameters (`SweepableParams`) wherever the roll makes the sweep decode them, and does not model that crash.
- Trigger checks: a numeric parameter (`threshold`, `limit_mb`, `avg_volume`, `threshold_percent`) must be absent, a number or a boolean. `float()` raises on other values, and it also accepts numeric strings, which the model does not parse. Both cases are excluded by a precondition.
- VolumeSpikeTrigger.Check: an `avg_volume` of 0 raises a division error in the original. It is excluded by a precondition.
- Floating point: all arithmetic is exact `real`. Rounding, and cases where float rounding would change a comparison, are not modelled.
- Number formatting in messages (`:.1f`, `:.2f`, `:,`, Python's `str` of values). A message shows the value itself, not its text. The toast count is rendered in decimal.
- `get_name` and `get_description` are modelled only as constants.
- The trigger base class, and discovery and dispatch of triggers by reflection (`app/alert_runner.py`), are not part of this model. The shared `AlertOutput` datatype stands in for the interface.
- `on_load` (app/states/alert_state.py:136-140) only runs `InitializeDb` in the background under the state lock. Concurrency is not modelled.
- The colour-mode switch that `toggle_dark_mode` returns to the browser is presentation.
- Logging of decoding errors.
