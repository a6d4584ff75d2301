# Load-average monitor and API response projections

A Dafny model of two parts of the `monitoring-agent-daemon`:

- the **load-average monitor** (`LoadAvgMonitor`): it registers an `Unknown`
  status for its name in the status map that all monitors share, checks a
  reading of the OS load average against three optional ceilings (1, 5 and
  10 minutes), writes `Ok` or a combined `Error` into that map, and hands the
  reading to the database when it is configured to;
- the **response projections** of the read API: `MeminfoResponse::from_meminfo`
  and `CpuinfoResponse::from_cpuinfo`.

Files:

- `wrappers.dfy` (`Wrappers`): Rust's `Option` and `Result`.
- `monitor_status.dfy` (`MonitorStatuses`): `Status`, `MonitorStatus`, the
  text Rust's derived `Debug` gives a status (the aggregate message embeds it),
  and a reader for that text.
- `registry.dfy` (`Registry`): the shared `Arc<Mutex<HashMap<String, MonitorStatus>>>`
  as the class `StatusRegistry`, whose `statuses` map the monitors reassign in
  place; taking the lock fails exactly when the mutex is poisoned.
- `loadavg.dfy` (`LoadAvg`): the sub-check, the aggregate classification, the
  database stand-in, the job error mapping and the class `LoadAvgMonitor`.
- `response.dfy` (`Response`): the two response records and their builders.

Modelling choices:

- Load averages are `real`; the only operation on them is `>`. How Rust's
  `{}` writes an `f32` is the parameter `fmt: real -> string`. The unit-test
  lemmas assume only the renderings the tests rely on: `1.0`, `2.0` and `3.0`
  as `"1"`, `"2"` and `"3"`, and `1.1`, `2.1` and `3.1` as `"1.1"`, `"2.1"`
  and `"3.1"`.
- The OS read `ProcsLoadavg::get_loadavg` is the input `read` of `Check`. The
  result of `MariaDbService::store_loadavg` is the input `outcome`. The
  database service is a class that records each reading it is asked to store
  (`storeCalls`).
- `set_status` (a default method of the `Monitor` trait, not part of this
  model) is modelled by its observable effect. It takes the lock and files the
  status under the monitor's name, or drops the update when the lock fails.
- `MeminfoResponse::new` and `CpuinfoResponse::new` are the datatype
  constructors `MeminfoResponse(...)` and `CpuinfoResponse(...)`: each argument
  becomes the field of the same name by construction.
- `u8` and `u64` are the newtypes `uint8` and `uint64`. `ProcsMeminfo` and
  `ProcsCpuinfo` come from the agent's library and are not part of this model.
  `ProcsCpuinfo` is given only the fields the response reads. `ProcsMeminfo`
  is given the four fields `from_meminfo` reads and also `swapfree`, which
  `from_meminfo` as written never reads: only the corrected
  `FromMeminfoIntended` reads it.

## Model

| member | source | states |
|---|---|---|
| `LoadAvg.CheckLoadavgValues` | monitoring-agent-daemon/src/services/monitors/loadavgmonitor.rs:115-127 | a missing reading or a missing ceiling gives `Ok`; with both present the result is `Ok` iff reading <= ceiling (equal passes), otherwise `Error` with the message naming both values; never `Unknown` |
| `LoadAvg.CheckLoadavgValuesCases` | monitoring-agent-daemon/src/services/monitors/loadavgmonitor.rs:274-292 | the five cases of the unit test: equal gives `Ok`; 2 over 1 gives the exact error text; a missing value on either side or both gives `Ok` |
| `LoadAvg.ClassifyLoadavg` | monitoring-agent-daemon/src/services/monitors/loadavgmonitor.rs:90-104 | the aggregate is never `Unknown`; it is `Ok` iff none of the 1, 5 and 10-minute sub-checks fails; an `Error` message reads back as exactly the three sub-results, in the order 1min, 5min, 10min |
| `LoadAvg.AggregateMessageRoundTrip` | monitoring-agent-daemon/src/services/monitors/loadavgmonitor.rs:97-99 | the combined message determines the three sub-results it was built from, in order (reading it back gives them) |
| `MonitorStatuses.ParseDebugText` | monitoring-agent-daemon/src/services/monitors/loadavgmonitor.rs:98 | the `Debug` text of any status, followed by any text, reads back as that status and that text |
| `MonitorStatuses.UnescapeEscape` | monitoring-agent-daemon/src/services/monitors/loadavgmonitor.rs:98 | the escaped body of a quoted message, followed by the closing quote, unescapes to the message and the text after the quote |
| `LoadAvg.ExceedMessagePlain` | monitoring-agent-daemon/src/services/monitors/loadavgmonitor.rs:120-123 | when the rendered numbers hold no character needing an escape, the sub-check message appears unescaped inside the aggregate |
| `LoadAvg.OneMinuteHigher` | monitoring-agent-daemon/src/services/monitors/loadavgmonitor.rs:335-362 | ceilings 1, 2, 3 and reading 1.1, 2.0, 3.0 give the test's exact `Error` text (1min failed, 5min and 10min `Ok`) |
| `LoadAvg.FiveMinutesHigher` | monitoring-agent-daemon/src/services/monitors/loadavgmonitor.rs:370-397 | ceilings 1, 2, 3 and reading 1.0, 2.1, 3.0 give the test's exact `Error` text |
| `LoadAvg.TenMinutesHigher` | monitoring-agent-daemon/src/services/monitors/loadavgmonitor.rs:405-432 | ceilings 1, 2, 3 and reading 1.0, 2.0, 3.1 give the test's exact `Error` text |
| `LoadAvg.LowerOnAll` | monitoring-agent-daemon/src/services/monitors/loadavgmonitor.rs:300-327 | a fresh map, a new monitor and one check with every reading at its ceiling leave `Ok` under `"test"` |
| `Registry.StatusRegistry.Get` | monitoring-agent-daemon/src/services/monitors/loadavgmonitor.rs:325-326 | a lookup finds an entry exactly when the name is a key, returns the stored entry, and that entry is filed under the name asked for |
| `Registry.StatusRegistry.constructor` | monitoring-agent-daemon/src/services/monitors/loadavgmonitor.rs:308 | a new shared map is empty and keeps every entry under its own name |
| `LoadAvg.LoadAvgMonitor.constructor` | monitoring-agent-daemon/src/services/monitors/loadavgmonitor.rs:50-81 | with the lock taken, the map gains `Unknown` under `name` and every other key is unchanged; with the lock poisoned the map is untouched and the monitor is still built; every field holds its argument |
| `LoadAvg.LoadAvgMonitor.SetStatus` | monitoring-agent-daemon/src/services/monitors/loadavgmonitor.rs:96-102 | files the status under the monitor's name and changes nothing else, or changes nothing when the lock fails |
| `LoadAvg.LoadAvgMonitor.CheckLoadavg` | monitoring-agent-daemon/src/services/monitors/loadavgmonitor.rs:90-104 | afterwards the entry under the monitor's name is the classified status of the reading (other keys unchanged), unless the lock fails |
| `LoadAvg.LoadAvgMonitor.StoreCurrentLoadavg` | monitoring-agent-daemon/src/services/monitors/loadavgmonitor.rs:147-159 | with a database the reading is handed to it once, whatever the outcome; without one nothing happens; the status map is not in its frame |
| `LoadAvg.LoadAvgMonitor.CheckStoreCurrentLoadavg` | monitoring-agent-daemon/src/services/monitors/loadavgmonitor.rs:136-140 | the reading is stored iff the store flag is set and a database is present; the store level is not consulted |
| `LoadAvg.LoadAvgMonitor.Check` | monitoring-agent-daemon/src/services/monitors/loadavgmonitor.rs:200-211 | a failed read changes neither the map nor the database; a good read is stored under the same gate and then classified into the map; a store failure does not affect the status |
| `LoadAvg.MariaDbService.StoreLoadavg` | monitoring-agent-daemon/src/services/monitors/loadavgmonitor.rs:150-155 | each store call is recorded once, in order, and returns the outcome it was given |
| `LoadAvg.JobResult` | monitoring-agent-daemon/src/services/monitors/loadavgmonitor.rs:186-194 | a built job is returned unchanged; a failure becomes an `ApplicationError` whose message is `Could not create job: ` followed by the scheduler's error text |
| `Response.FromMeminfo` | monitoring-agent-daemon/src/api/response.rs:62-64 | as written: total, free and available memory and total swap are copied; free swap is filled from the total swap |
| `Response.FromMeminfoIntended` | monitoring-agent-daemon/src/api/response.rs:9-25 | every figure of the readout is reported unchanged in the field of the same meaning (the response reads back as the readout) |
| `Response.FromMeminfoFaithfulIff` | monitoring-agent-daemon/src/api/response.rs:63 | the response as written reads back as the readout, and equals the intended one, exactly when free swap equals total swap |
| `Response.FromMeminfoSwapFreeCounterexample` | monitoring-agent-daemon/src/api/response.rs:63 | a readout with 2 units of swap, 1 free, is reported with 2 free |
| `Response.FromCpuinfo` | monitoring-agent-daemon/src/api/response.rs:138-140 | one response per CPU: same length, and element `i` carries every field of CPU `i` unchanged (`None` stays `None`) |
| `Response.FromCpuinfoAppend` | monitoring-agent-daemon/src/api/response.rs:139 | the conversion keeps order: converting a concatenation is concatenating the conversions |
| `Response.FromCpuinfoInjective` | monitoring-agent-daemon/src/api/response.rs:139 | different CPU lists give different responses: the conversion loses nothing |

## Findings

| source | as written | input that shows it | evidently intended | confidence | as-written member | corrected member |
|---|---|---|---|---|---|---|
| monitoring-agent-daemon/src/api/response.rs:63 | `swap_free` is filled from `procs_mem_info.swaptotal` | a readout with `swaptotal = 2`, `swapfree = 1` is reported with `swapFree = 2` | `swap_free` filled from `swapfree`, as the field's doc comment "The free swap" says | high (not executed) | `Response.FromMeminfo`, `Response.FromMeminfoSwapFreeCounterexample` | `Response.FromMeminfoIntended` |

## Left out

- Concurrency of the `Arc<Mutex<...>>`. The shared map is one object with a single owner at a time. Lock failure is the mutex being poisoned. Poisoning by a panic in another monitor's thread belongs to the concurrency left out, so the flag is fixed when the map is built. Every contract depends on the flag as it is at the time of the call.
- `LoadAvg.LoadAvgMonitor.Check`: the store happens before the classification in the source and in the model's body. The contracts cannot show that order, because the two effects touch separate objects and neither reads the other.
- `set_status` and the `Monitor` trait defaults are not part of this model. `SetStatus` inserts or overwrites the entry under the monitor's name. If the real default only updates an existing entry, the two differ only when registration lost the lock and the check then takes it.
- The accessors `get_name`, `get_status`, `get_database_service` and `get_database_store_level` are not modelled. The monitor's fields are public constants in the model.
- `DatabaseStoreLevel` is an abstract type. The monitor stores it and never inspects it, and its variants are not part of this model.
- Float text and IEEE semantics. Values are `real`s, with no NaN and no infinities. The text Rust's `{}` gives an `f32` is the parameter `fmt`.
- `Debug` escaping covers `\t`, `\r`, `\n`, `\\`, `\"` and `\0`. Rust's `\u{...}` escapes of non-printable and grapheme-extending characters are not modelled.
- `get_loadavg_monitor_job` is left out apart from its error mapping (`JobResult`). It clones the monitor and builds a cron job through `tokio_cron_scheduler`, a library outside this model. The job is a type parameter.
- `ProcsLoadavg::get_loadavg` and `MariaDbService::store_loadavg` are foreign calls: the OS read and the database write. Their results are inputs. The database only records which readings it was asked to store.
- Logging (`error!`, `info!`) has no observable effect in the model.
- `ProcsMeminfo.swapfree`: the library type's definition is not part of this model, so the field is assumed to exist, as the free-swap counterpart of `swaptotal`. Only `FromMeminfoIntended`, `FromMeminfoFaithfulIff` and the counterexample depend on it.
- Serde attributes of the response records (JSON renaming, skipping `None`) are not modelled.
