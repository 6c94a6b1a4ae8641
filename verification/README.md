# monitoring-service alerting core in Dafny

This project models the core of the Spring Boot `monitoring-service`.

- **Metrics collector.** It turns the `/metrics` JSON payload into one stored `Metric` snapshot, or skips the tick.
- **Alarm service.** On each scheduled pass it reads the latest snapshot and classifies CPU, MEMORY and REQUESTS against the WARNING/CRITICAL thresholds. A single global cooldown timestamp guards emission. For each emitted alarm it calls every notifier, then saves an `AlarmEntity`, then moves the timestamp.
- **Read-side services.** Metric DTO flattening (three DTOs per snapshot), alarm KPI counting (total and per-severity counts), and the alarm filter endpoint's query dispatch.
- **Exception handlers.** Two global exception handlers that build the five-entry JSON error body (`timestamp`, `status`, `error`, `message`, `path`).

How the Java objects are modelled:

- Stateful objects are Dafny classes:
  - `AlarmService` owns `lastAlarmTime` and a trace of collaborator calls;
  - `MetricRepository` and `AlarmRepository` are append-only stores with an `available` flag: when the database does not answer, a read or a save on the store throws;
  - `MetricsCollector` holds its store and service name.
- Stateless services are functions over values.
- The methods are proved against specification functions:
  - `AlarmRules.Pass` for one alarm pass;
  - `Collection.Sample` for one collection;
  - `ErrorBodies.IsErrorResponse` for an error body.
- Lemmas prove the service's promises about those functions:
  - the severity partition;
  - only the latest snapshot counts;
  - at most one alarm per pass with a positive cooldown;
  - stored alarms are spaced by the cooldown over any sequence of passes;
  - a save that throws leaves the gate where it was, so the alarm is notified again on the next pass;
  - a negative cooldown means no alarm is ever stored;
  - the alarm message's number reads back as the value;
  - DTO layout;
  - KPI counts sum to the total;
  - filter semantics;
  - error body shape.

Modelling conventions:

- Time is an integer number of seconds. `LocalDateTime.MIN` as the initial `lastAlarmTime` is `None`.
- Java `int` fields are the subset type `Domain.Int32`.
- The alarm value is the (integer) reading widened to `double`. It is kept as an integer, and `%.2f` renders it as `<n>.00`.
- In the read-side services a failing repository read is a `Result.Failure` value, passed on unchanged like the source's rethrow.
- In the alarm service and the collector a store whose database does not answer has `available == false`. An alarm pass then ends with `completed == false` (`PassEnd` says where); a collection reports `Failed`, as its `catch` does.
- Adding a negative cooldown to `LocalDateTime.MIN` throws in Java. The model calls this gate outcome `OutOfRange`: it ends the pass, reported as `completed == false`.

Consequences of the code as written:

- The notifier loop at `AlarmService.java:95-97` and the save at `:108` have no `try`/`catch`. So there is no per-notifier failure isolation. Every notifier is called before the save, and the call trace records the notifications first.
- A save that throws at `:108` ends the pass after the notifications went out. `lastAlarmTime` is not moved, because `:110` is not reached. Every later pass over the same breach notifies again, whatever the cooldown (`AlarmRules.FailedSaveRenotifies`).
- With a positive cooldown a pass stores at most one alarm (`AlarmRules.PassWithCooldown`).
- With a cooldown of zero, an open gate and a store that saves, every breaching dimension of a pass is notified and stored. A throwing save ends the pass at the first breach (`AlarmRules.PassWithoutCooldown`).
- With a negative cooldown from start-up, `LocalDateTime.MIN.plusSeconds` at `:80` throws on the first breach. `lastAlarmTime` then never leaves MIN, and no alarm is ever emitted (`AlarmRules.NegativeCooldownNeverEmits`).

## Model

| member | source | states |
|---|---|---|
| AlarmRules.Classify | monitoring-service/src/main/java/com/monitoring/monitoring_service/service/AlarmService.java:70-76 | CRITICAL iff value >= critical; WARNING iff warning <= value < critical; no severity iff the value is below both thresholds |
| AlarmRules.FirstBreach | monitoring-service/src/main/java/com/monitoring/monitoring_service/service/AlarmService.java:58-65 | a breaching dimension such that no dimension before it in CPU, MEMORY, REQUESTS order breaches; None exactly when none breaches |
| AlarmRules.CooldownGate | monitoring-service/src/main/java/com/monitoring/monitoring_service/service/AlarmService.java:80 | suppressed exactly when a timestamp is set and timestamp + cooldown is strictly after now; throws exactly from MIN with a negative cooldown; open otherwise |
| AlarmRules.GateStaysOpen | monitoring-service/src/main/java/com/monitoring/monitoring_service/service/AlarmService.java:80 | a gate open at one clock reading is open at every later one |
| AlarmRules.AlarmMessage | monitoring-service/src/main/java/com/monitoring/monitoring_service/service/AlarmService.java:91 | the message starts with the severity name and ends with two decimals |
| AlarmRules.AlarmMessageLayout | monitoring-service/src/main/java/com/monitoring/monitoring_service/service/AlarmService.java:91 | every message is "<severity> level reached for <metric>: " followed by the value rendered with two decimals |
| AlarmRules.AlarmMessageReadsBack | monitoring-service/src/main/java/com/monitoring/monitoring_service/service/AlarmService.java:91 | the number at the end of the message parses back to the value |
| AlarmRules.Evaluate | monitoring-service/src/main/java/com/monitoring/monitoring_service/service/AlarmService.java:68-92 | no breach exactly below both thresholds; cooling down exactly for a breach under a suppressed gate; a failure exactly for a breach under a throwing gate; an alarm exactly for a breach under an open gate |
| AlarmRules.Step | monitoring-service/src/main/java/com/monitoring/monitoring_service/service/AlarmService.java:68-110 | one check adds at most one stored alarm, stamped now, and only when the save succeeds; the gate moves to now exactly when it adds one; a throwing save is reported only when saves fail, and a throwing gate only from MIN with a negative cooldown |
| AlarmRules.Pass | monitoring-service/src/main/java/com/monitoring/monitoring_service/service/AlarmService.java:49-66 | an empty store changes nothing; at most three alarms, all stamped now, none when saves fail; the gate moves to now exactly when an alarm is stored; a throwing gate only from MIN with a negative cooldown |
| AlarmRules.RaisedAlarmFields | monitoring-service/src/main/java/com/monitoring/monitoring_service/service/AlarmService.java:85-92 | a raised alarm carries the service name, the metric name, the value, the clock reading and the classified severity; the number at the end of its message parses back to the value |
| AlarmRules.EmptyStoreNoEffect | monitoring-service/src/main/java/com/monitoring/monitoring_service/service/AlarmService.java:51-54 | an empty metric store emits nothing and leaves the cooldown timestamp alone |
| AlarmRules.OnlyLatestMetricMatters | monitoring-service/src/main/java/com/monitoring/monitoring_service/service/AlarmService.java:56 | a pass depends only on the last stored snapshot |
| AlarmRules.NoBreachNoEffect | monitoring-service/src/main/java/com/monitoring/monitoring_service/service/AlarmService.java:78 | a latest snapshot below every threshold emits nothing and leaves the gate unchanged |
| AlarmRules.SuppressedPassNoEffect | monitoring-service/src/main/java/com/monitoring/monitoring_service/service/AlarmService.java:80-82 | while last + cooldown is after now the whole pass is suppressed: no alarm, gate unchanged |
| AlarmRules.BoundaryEmits | monitoring-service/src/main/java/com/monitoring/monitoring_service/service/AlarmService.java:80 | `isAfter` is strict: a breach exactly at last + cooldown is notified |
| AlarmRules.FirstBreachAfterStartEmits | monitoring-service/src/main/java/com/monitoring/monitoring_service/service/AlarmService.java:32 | from the initial MIN timestamp the first breach is notified when the cooldown is non-negative; a negative cooldown makes the gate throw and ends the pass with nothing notified |
| AlarmRules.PassWithCooldown | monitoring-service/src/main/java/com/monitoring/monitoring_service/service/AlarmService.java:49-112 | with a positive cooldown a pass raises at most one alarm, the one for the first breaching dimension, exactly when the gate is open; a successful save stores it and moves the gate to now, a throwing save leaves it unsaved and the gate unchanged |
| AlarmRules.PassWithoutCooldown | monitoring-service/src/main/java/com/monitoring/monitoring_service/service/AlarmService.java:49-112 | with a cooldown <= 0 and an open gate a pass stores one alarm per breaching dimension, in CPU, MEMORY, REQUESTS order; with a throwing save it stores none and ends at the first |
| AlarmRules.QuietStep | monitoring-service/src/main/java/com/monitoring/monitoring_service/service/AlarmService.java:80-82 | once a pass has ended, or right after a stored alarm with a positive cooldown, a check changes nothing |
| AlarmRules.AllBreachesSaved | monitoring-service/src/main/java/com/monitoring/monitoring_service/service/AlarmService.java:58-110 | with no cooldown, an open gate and a working store, a pass over one snapshot stores the alarms of all breaching dimensions in order |
| AlarmRules.SavedStep | monitoring-service/src/main/java/com/monitoring/monitoring_service/service/AlarmService.java:68-110 | with no cooldown, an open gate and a working store, a check appends the alarm of a breaching dimension and leaves the gate open |
| AlarmRules.FirstBreachUnsaved | monitoring-service/src/main/java/com/monitoring/monitoring_service/service/AlarmService.java:95-108 | with no cooldown, an open gate and a throwing save, a pass ends at the first breaching dimension with nothing stored and the gate unchanged |
| AlarmRules.FirstRaise | monitoring-service/src/main/java/com/monitoring/monitoring_service/service/AlarmService.java:49-112 | with a working store, a pass stores something exactly when the latest snapshot breaches and the gate is open, and the first alarm is the one for the first breaching dimension |
| AlarmRules.FailedSavePass | monitoring-service/src/main/java/com/monitoring/monitoring_service/service/AlarmService.java:95-110 | a throwing save cuts the pass at its first alarm: that alarm was notified, nothing is stored, the gate keeps its old timestamp |
| AlarmRules.FailedSaveRenotifies | monitoring-service/src/main/java/com/monitoring/monitoring_service/service/AlarmService.java:95-110 | after a pass whose save threw, every later pass over the same store notifies the same alarm again, stamped with its own clock reading |
| AlarmRules.PassSummary | monitoring-service/src/main/java/com/monitoring/monitoring_service/service/AlarmService.java:80-110 | with a positive cooldown: at most one stored alarm per pass, and only when last + cooldown <= now |
| AlarmRules.Run | monitoring-service/src/main/java/com/monitoring/monitoring_service/service/AlarmService.java:49-110 | over successive passes the gate ends at the timestamp of the last stored alarm, or where it started when none was stored |
| AlarmRules.RunCons | monitoring-service/src/main/java/com/monitoring/monitoring_service/service/AlarmService.java:49-66 | a run is its first pass followed by the rest of the run from the gate that pass leaves |
| AlarmRules.SpacedPrepend | monitoring-service/src/main/java/com/monitoring/monitoring_service/service/AlarmService.java:80-82 | an alarm that respects the gate, put before a run spaced from it, keeps the whole run spaced |
| AlarmRules.CooldownSpacesAlarms | monitoring-service/src/main/java/com/monitoring/monitoring_service/service/AlarmService.java:31-32 | over any sequence of passes with a positive cooldown, saves failing or not, every two stored alarms are at least the cooldown apart, and all are at least the cooldown after the starting timestamp |
| AlarmRules.NegativeCooldownNeverEmits | monitoring-service/src/main/java/com/monitoring/monitoring_service/service/AlarmService.java:32 | with a negative cooldown, from the MIN timestamp, no sequence of passes stores an alarm and the gate stays at MIN |
| AlarmScenarios.WarningScenario | monitoring-service/src/test/java/com/monitoring/monitoring_service/AlarmServiceTest.java:87-109 | CPU 75 under the test configuration raises exactly one WARNING alarm for CPU with value 75 and message "WARNING level reached for CPU: 75.00" |
| AlarmScenarios.CriticalScenario | monitoring-service/src/test/java/com/monitoring/monitoring_service/AlarmServiceTest.java:114-136 | CPU 95 raises exactly one CRITICAL alarm for CPU with value 95 |
| AlarmScenarios.Renders75 | monitoring-service/src/main/java/com/monitoring/monitoring_service/service/AlarmService.java:91 | `%.2f` renders 75 as "75.00" |
| AlarmScenarios.Renders95 | monitoring-service/src/main/java/com/monitoring/monitoring_service/service/AlarmService.java:91 | `%.2f` renders 95 as "95.00" |
| AlarmScenarios.WarningMessage | monitoring-service/src/test/java/com/monitoring/monitoring_service/AlarmServiceTest.java:87-109 | the WARNING alarm for CPU 75 reads "WARNING level reached for CPU: 75.00" |
| AlarmScenarios.CriticalMessage | monitoring-service/src/test/java/com/monitoring/monitoring_service/AlarmServiceTest.java:114-136 | the CRITICAL alarm for CPU 95 reads "CRITICAL level reached for CPU: 95.00" |
| AlarmScenarios.CooldownActiveScenario | monitoring-service/src/test/java/com/monitoring/monitoring_service/AlarmServiceTest.java:141-162 | CPU 95 stores one CRITICAL alarm; an immediate second pass over the same snapshot is suppressed by the 10 s cooldown and stores nothing |
| AlarmScenarios.CriticalAfterWindow | monitoring-service/src/main/java/com/monitoring/monitoring_service/service/AlarmService.java:80-82 | a CRITICAL snapshot read 11 s after a WARNING at t, past the 10 s window, stores CRITICAL |
| AlarmScenarios.SuppressedThenCritical | monitoring-service/src/main/java/com/monitoring/monitoring_service/service/AlarmService.java:80-82 | after a WARNING at t, a pass at t is suppressed and a pass at t + 11 stores CRITICAL |
| AlarmScenarios.CooldownScenario | monitoring-service/src/main/java/com/monitoring/monitoring_service/service/AlarmService.java:80-110 | a WARNING stored at t; a pass at t over CPU 95 is suppressed; the same snapshot at t + 11 stores CRITICAL (a run beyond the unit test) |
| AlarmScenarios.UnsavedWarning | monitoring-service/src/main/java/com/monitoring/monitoring_service/service/AlarmService.java:95-108 | CPU 75 at start-up with a throwing save: the WARNING is notified, nothing is stored, the gate stays at MIN |
| AlarmScenarios.FailedSaveScenario | monitoring-service/src/main/java/com/monitoring/monitoring_service/service/AlarmService.java:95-110 | a save that throws at t leaves the gate at MIN, so a pass one second later notifies and stores the same WARNING despite the 10 s cooldown |
| Alarms.Deliveries | monitoring-service/src/main/java/com/monitoring/monitoring_service/service/AlarmService.java:95-97 | one notification per notifier, in list order, each carrying the same alarm |
| Alarms.Entities | monitoring-service/src/main/java/com/monitoring/monitoring_service/service/AlarmService.java:100-106 | one stored row per emitted alarm, field for field, in order |
| Alarms.AppendOne | monitoring-service/src/main/java/com/monitoring/monitoring_service/service/AlarmService.java:95-108 | emitting one more alarm appends its notifications and its save to the trace and its row to the store |
| Alarms.AlarmService.constructor | monitoring-service/src/main/java/com/monitoring/monitoring_service/service/AlarmService.java:25-41 | the service keeps the injected stores, configuration and notifiers, and starts with the gate at `LocalDateTime.MIN` and no calls made |
| Alarms.AlarmService.CheckThreshold | monitoring-service/src/main/java/com/monitoring/monitoring_service/service/AlarmService.java:68-112 | below thresholds or cooling down: nothing changes; otherwise every notifier is called, then the row is saved and the gate moves to now; a throwing save leaves the notifications, stores nothing, keeps the gate and reports failure; a throwing gate changes nothing and reports failure |
| Alarms.AlarmService.CheckMetricsForAlarms | monitoring-service/src/main/java/com/monitoring/monitoring_service/service/AlarmService.java:49-66 | a metric store that does not answer changes nothing and reports failure; otherwise the alarm store, the call trace and the gate end exactly as the pass over the latest snapshot says: its alarms saved in order, each notified before it is saved, then the notifications of an alarm whose save threw |
| Alarms.AlarmService.Advance | monitoring-service/src/main/java/com/monitoring/monitoring_service/service/AlarmService.java:58-65 | after each threshold check the stores and gate agree with the pass state advanced by that dimension |
| Alarms.AlarmService.AdvanceBy | monitoring-service/src/main/java/com/monitoring/monitoring_service/service/AlarmService.java:95-110 | the same, for any outcome of the check |
| Repositories.AlarmRepository.Save | monitoring-service/src/main/java/com/monitoring/monitoring_service/service/AlarmService.java:108 | a store that answers appends the row and reports success; one that does not stores nothing and reports failure |
| Collection.IntegerEntry | monitoring-service/src/main/java/com/monitoring/monitoring_service/service/MetricsCollector.java:99-101 | an entry yields a reading exactly when the key is present and holds an Integer |
| Collection.Sample | monitoring-service/src/main/java/com/monitoring/monitoring_service/service/MetricsCollector.java:95-102 | a snapshot exists exactly when the body is non-null and cpu, memory and requests are Integers; it carries them, the configured service name and now |
| Collection.SampleRoundTrip | monitoring-service/src/main/java/com/monitoring/monitoring_service/service/MetricsCollector.java:97-102 | a payload written for given readings is read back as those readings, whatever other keys it has |
| Collection.MetricsCollector.constructor | monitoring-service/src/main/java/com/monitoring/monitoring_service/service/MetricsCollector.java:51-55 | the collector keeps the injected store and the configured service name |
| Collection.MetricsCollector.CollectMetrics | monitoring-service/src/main/java/com/monitoring/monitoring_service/service/MetricsCollector.java:77-113 | a well-formed payload appends exactly one snapshot under a fresh positive id; a null body, a transport failure, a bad entry or a database that does not answer appends nothing and no exception escapes; NullPayload exactly for a null body; the store's availability is unchanged |
| Collection.MetricsCollector.CollectMetricsAfterStartup | monitoring-service/src/main/java/com/monitoring/monitoring_service/service/MetricsCollector.java:66-70 | start-up performs exactly one collection: the same outcome, the same append or none, and NullPayload exactly for a null body |
| Repositories.MetricRepository.Save | monitoring-service/src/main/java/com/monitoring/monitoring_service/service/MetricsCollector.java:104 | the saved snapshot gets a positive id that no stored row has and is appended, earlier rows unchanged; a database that does not answer stores nothing |
| MetricViews.ToDtos | monitoring-service/src/main/java/com/monitoring/monitoring_service/service/MetricService.java:52-61 | three DTOs per metric, in metric order: `<service>_CPU`, `_MEMORY`, `_REQUESTS` with the metric's id and readings |
| MetricViews.FindAll | monitoring-service/src/main/java/com/monitoring/monitoring_service/service/MetricService.java:41-71 | a failed read is passed on unchanged; a successful one gives exactly the flattened DTO list, three per metric; an empty store gives an empty list |
| AlarmKpi.GroupCounts | src/main/java/com/monitoring/monitoring_service/service/AlarmKpiService.java:37-38 | a severity is a key exactly when some alarm has it; its count is its number of occurrences and is positive |
| AlarmKpi.TotalSplit | src/main/java/com/monitoring/monitoring_service/service/AlarmKpiService.java:37-38 | the sum of a count map is one entry plus the sum of the rest |
| AlarmKpi.CountsSumToTotal | src/main/java/com/monitoring/monitoring_service/service/AlarmKpiService.java:37-40 | the per-severity counts sum to the number of alarms |
| AlarmKpi.CalculateKpi | src/main/java/com/monitoring/monitoring_service/service/AlarmKpiService.java:28-50 | a failed read is rethrown; otherwise the total is the number of stored alarms; an empty store gives total 0 and no counts |
| AlarmKpi.KpiConsistent | monitoring-service/src/main/java/com/monitoring/monitoring_service/service/AlarmKpiService.java:26-34 | the KPI of a successful read: total, exact per-severity counts, keys only for occurring severities, counts summing to the total |
| AlarmFilter.SelectQuery | monitoring-service/src/main/java/com/monitoring/monitoring_service/controller/AlarmController.java:69-77 | severity with both bounds selects the combined query; severity otherwise the severity query; both bounds without severity the time query; anything else all alarms; the chosen query carries the given parameters |
| AlarmFilter.RunQuery | monitoring-service/src/main/java/com/monitoring/monitoring_service/repository/AlarmRepository.java:21-25 | the result is the sub-multiset of the store matching the query (severity equal, timestamp within inclusive bounds), with every matching row kept with its multiplicity |
| AlarmFilter.GetAlarms | monitoring-service/src/main/java/com/monitoring/monitoring_service/controller/AlarmController.java:57-78 | an alarm is returned exactly when it is stored and matches the selected query |
| AlarmFilter.LoneBoundIgnored | monitoring-service/src/main/java/com/monitoring/monitoring_service/controller/AlarmController.java:71-76 | a single time bound is ignored: with a severity the result is the severity filter, without one it is the whole store |
| AlarmFilter.RunAllIsStore | monitoring-service/src/main/java/com/monitoring/monitoring_service/controller/AlarmController.java:75-76 | the unfiltered query returns the whole store in order |
| DecimalFormat.NatToDecimal | monitoring-service/src/main/java/com/monitoring/monitoring_service/service/AlarmService.java:91 | the decimal rendering is a non-empty digit string with no leading zero except for 0 |
| DecimalFormat.NatToDecimalRoundTrip | monitoring-service/src/main/java/com/monitoring/monitoring_service/service/AlarmService.java:91 | reading the decimal rendering back gives the number |
| DecimalFormat.FormatFixed2 | monitoring-service/src/main/java/com/monitoring/monitoring_service/service/AlarmService.java:91 | `%.2f` of an integral value ends in ".00" |
| DecimalFormat.FormatFixed2RoundTrip | monitoring-service/src/main/java/com/monitoring/monitoring_service/service/AlarmService.java:91 | parsing the `%.2f` rendering gives back the value, negative values included |
| DecimalFormat.FormatFixed2Injective | monitoring-service/src/main/java/com/monitoring/monitoring_service/service/AlarmService.java:91 | different values render to different messages |
| ErrorBodies.Put | src/main/java/com/monitoring/monitoring_service/exception/GlobalExceptionHandler.java:57-62 | insertion-ordered map put: the key maps to the new value, other keys keep theirs, a new key goes last in the key order and an existing one keeps its place |
| ErrorBodies.PutPreservesWellFormed | src/main/java/com/monitoring/monitoring_service/exception/GlobalExceptionHandler.java:57-62 | a LinkedHashMap keeps listing every key exactly once in its insertion order across puts |
| ExceptionHandling.BuildResponse | src/main/java/com/monitoring/monitoring_service/exception/GlobalExceptionHandler.java:56-64 | the body has exactly the keys timestamp, status, error, message, path in order, with the status code, its reason phrase, the message, the time and the request path |
| ExceptionHandling.StatusFor | src/main/java/com/monitoring/monitoring_service/exception/GlobalExceptionHandler.java:79-195 | 400 exactly for illegal-argument, missing-parameter and validation errors; 404 exactly for not-found; 403 exactly for access denied; 503 exactly for database errors; 422 exactly for the monitoring exception; 500 exactly for the rest |
| ExceptionHandling.MessageFor | src/main/java/com/monitoring/monitoring_service/exception/GlobalExceptionHandler.java:79-195 | fixed texts for access and database errors, the first field error for validation, the exception's message otherwise; the message is null exactly when a passed-through message is null |
| ExceptionHandling.HandleBadRequest | src/main/java/com/monitoring/monitoring_service/exception/GlobalExceptionHandler.java:79-83 | 400 Bad Request with the exception's message (null kept as null) |
| ExceptionHandling.HandleValidationException | src/main/java/com/monitoring/monitoring_service/exception/GlobalExceptionHandler.java:95-105 | 400 with "<field> <defaultMessage>" of the first field error, or "Validation error" when there is none |
| ExceptionHandling.HandleNotFound | src/main/java/com/monitoring/monitoring_service/exception/GlobalExceptionHandler.java:120-124 | 404 Not Found with the exception's message |
| ExceptionHandling.HandleAccessDenied | src/main/java/com/monitoring/monitoring_service/exception/GlobalExceptionHandler.java:137-141 | 403 Forbidden with the fixed message "Access denied" |
| ExceptionHandling.HandleDatabaseError | src/main/java/com/monitoring/monitoring_service/exception/GlobalExceptionHandler.java:155-159 | 503 Service Unavailable with the fixed message "Database error" |
| ExceptionHandling.HandleCustomMonitoringException | src/main/java/com/monitoring/monitoring_service/exception/GlobalExceptionHandler.java:173-177 | 422 Unprocessable Entity with the exception's message |
| ExceptionHandling.HandleAllExceptions | src/main/java/com/monitoring/monitoring_service/exception/GlobalExceptionHandler.java:191-195 | 500 Internal Server Error with the exception's message |
| ExceptionHandling.HandleException | src/main/java/com/monitoring/monitoring_service/exception/GlobalExceptionHandler.java:79-195 | every exception kind gets its handler's status and message in the standard body |
| ExceptionHandling.FixedMessagesHideExceptionText | src/main/java/com/monitoring/monitoring_service/exception/GlobalExceptionHandler.java:137-159 | access-denied (403) and database (503) responses never depend on the exception's own text |
| BasicExceptionHandling.HandleAllExceptions | monitoring-service/src/main/java/com/monitoring/monitoring_service/exception/GlobalExceptionHandler.java:38-52 | 500 with error "Internal Server Error", the exception's message, the time and the path, keys in the standard order |
| BasicExceptionHandling.HandleIllegalArgumentException | monitoring-service/src/main/java/com/monitoring/monitoring_service/exception/GlobalExceptionHandler.java:62-74 | 400 with error "Bad Request", the exception's message, the time and the path, keys in the standard order |

## Left out

- Scheduling (`@Scheduled`, the start-up event), threads and concurrent passes: a pass or a collection is one method call, and callers decide the order.
- The HTTP exchange, Basic authentication and JSON decoding in `MetricsCollector`: their outcome is the input `MetricsResponse`.
- A database whose availability changes in the middle of a pass or a collection: `available` is fixed for one method call.
- The notifier implementations (console, e-mail) and exceptions thrown by a notifier: a notification is an event in the service's call trace.
- Alarms.AlarmService.CheckThreshold: the source reads the clock up to three times per check (gate, alarm timestamp, new `lastAlarmTime`); the model uses one reading `now` per pass.
- The `Locale` used by `String.format` and fractional values: readings are integers, so `%.2f` always renders `<n>.00` with a dot.
- Logging in every class, `printMetrics`, the JPA `Pageable` (paging and sorting of the filter endpoint) and the ids of alarm rows.
- Spring's choice of the most specific `@ExceptionHandler` is taken as given: `ExceptionHandling.HandleException` dispatches on an explicit exception kind.
- A null service name or null severity in stored rows.
- Alarms.AlarmService.CheckMetricsForAlarms: the latest snapshot is taken as the last record inserted, while `AlarmService.java:51-56` takes the last element of an unsorted `findAll()`, whose order JPA does not fix.
- MetricViews.FindAll: the DTO list follows insertion order, while `findAll()` without a sort has no fixed order.
- AlarmFilter.GetAlarms: it states membership (and, through `RunQuery`, multiplicities) but not the repository's return order, which JPA does not fix without a sort.
