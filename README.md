# Migration core of clearblade-iot-core-migration, in Dafny

The tool copies the devices of a Google IoT Core registry into a ClearBlade IoT Core registry.
This project models the decision logic of that copy and proves properties of it:

- **Checkpoint store** (`checkpoint.dfy`, from checkpoint.go). The phase pointer, the history
  of phases left behind, and the id-keyed records of work done. It is a class whose methods
  update its fields in place. The checkpoint file is a `WorkDir` object, and each file
  operation's outcome is a parameter.
- **Device fetching** (`devices.dfy`, from devices.go). What one ListDevices iteration yields and
  which requested ids were not found. How a CSV id list is cut into ListDevices requests, both as
  written and corrected, and what the requests fetch. The
  per-device create-or-patch task, the update mask it sends, and the tally of task results.
- **Gateway reconciliation** (`gateways.dfy`, from devices.go). The gateway partition. The
  unbinding of whatever the destination has bound to a gateway. The per-device Get / Create /
  Bind step, both as written and corrected. The loops over listed devices and over gateways.
- **Helpers** (`utils.dfy`, `types.dfy`, from utils.go and types.go). readInput's line
  trimming, getAbsPath, the region table, getURI, getTimeString, transform, the error
  aggregator and its CSV rows, and the lock-guarded counter.

The destination registry is an abstract value (`registry.dfy`): a map of devices by id plus,
per gateway, the ordered list of bound device ids. Every remote call is a function of that value
and of a `Faults` record that names which calls fail and with what error. Calls that `Faults`
does not name follow the registry's rules:

- creating an existing id is a 409 conflict;
- a missing device is a 404;
- unbinding an unbound device succeeds;
- binding twice keeps one binding;
- a List call that sets no page size returns at most `pageSize` devices, the registry's own
  default, and a caller must follow the next-page token to see the rest.

The source registry's answers are inputs:

- for ListDevices, a `SourceRegistry`: the registry's devices in listing order, each id once,
  plus the requests (keyed by their id list) whose iteration stops with an error after some
  number of devices. A request with ids yields the registered devices it names, each once, in
  registry order. A request without ids yields the whole registry;
- for the bound-device iterator, a `SourceListing` of devices and an optional terminating error.

Supporting modules: `wrappers.dfy` (Option, Result), `seqs.dfy` (order-preserving filter and its
lemmas), `strings.dfy` (prefix, suffix, contains, join, decimal rendering) and `iot.dfy` (the
source and destination device records).

Where the code calls `log.Fatal*`, the model returns the error as a `Failure` instead of ending the
process. A Go panic (the nil dereferences below) is returned the same way, with the runtime's
message.

## Model

| member | source | states |
|---|---|---|
| Checkpoint.Fresh | checkpoint.go:48-64 | A run without a checkpoint starts in device_fetch, with an empty history and no recorded work. |
| Checkpoint.SetPhaseHistory | checkpoint.go:138-149 | SetPhase makes the phase current and adds to the history exactly the phase it leaves, and only when that differs from the new one. |
| Checkpoint.SetPhaseIdempotent | checkpoint.go:138-149 | Setting the same phase twice leaves the same state as setting it once. |
| Checkpoint.ForwardSetPhase | checkpoint.go:138-149 | Moving to a phase at or after the current one keeps the history strictly increasing and before the current phase. |
| Checkpoint.ForwardPrefix | checkpoint.go:138-149 | Any sequence of non-decreasing SetPhase calls from a forward state keeps it forward and ends in the last phase set. |
| Checkpoint.ForwardRunHasNoDuplicates | checkpoint.go:138-149 | Every fresh run that only moves forward stays forward, and after it completes no phase is recorded twice. |
| Checkpoint.CompleteHistory | checkpoint.go:273-290 | Complete makes "complete" current and records it, but does not record the phase it leaves. |
| Checkpoint.WorkDir.constructor | checkpoint.go:66-86 | The work directory holds the given file state. |
| Checkpoint.CheckpointState.constructor | checkpoint.go:48-64 | NewCheckpointState gives the fresh state for the run's arguments, with no unsaved changes. |
| Checkpoint.CheckpointState.Decoded | checkpoint.go:78-85 | A decoded checkpoint holds exactly the stored snapshot, with no unsaved changes. |
| Checkpoint.SaveNeverTears | checkpoint.go:88-107 | After a save, the file holds what it held before, the saved state, or text that does not parse; never some other snapshot. A reported success always leaves the saved state. |
| Checkpoint.CheckpointState.Save | checkpoint.go:88-107 | The state itself never changes. The file becomes FileAfterSave of its old contents, the state and the outcome. The call succeeds exactly when every step does, and then nothing is left unsaved. A failure leaves the dirty flag as it was and returns the message of the step that failed (create the directory, encode, write), followed by the reason. |
| Checkpoint.CheckpointState.MarkDirty | checkpoint.go:109-111 | Marks unsaved changes and changes nothing else. |
| Checkpoint.CheckpointState.FlushToDisk | checkpoint.go:129-136 | Without unsaved changes nothing is written and no error is returned. With them, success stores the state and clears the flag. A failure returns an error, keeps the flag set and leaves the file as FileAfterSave says. |
| Checkpoint.CheckpointState.SetPhase | checkpoint.go:138-149 | The new state is AfterSetPhase of the old one. The call succeeds exactly when the save does. The file is what the save leaves, and a success leaves the new state stored and clean. |
| Checkpoint.CheckpointState.AddFetchedDevice | checkpoint.go:151-157 | Records the device under its id, changes no other field, and marks the state dirty. |
| Checkpoint.CheckpointState.AddMigratedDevice | checkpoint.go:159-165 | Adds the id to the migrated set, changes no other field, and marks the state dirty. |
| Checkpoint.CheckpointState.AddProcessedConfig | checkpoint.go:167-174 | Adds the id to the processed set, stores its config history, changes no other field, and marks the state dirty. |
| Checkpoint.CheckpointState.AddProcessedGateway | checkpoint.go:176-182 | Adds the gateway to the processed set, changes no other field, and marks the state dirty. |
| Checkpoint.CheckpointState.SetTotalDevices | checkpoint.go:184-190 | Sets the total, changes no other field, and marks the state dirty. |
| Checkpoint.CheckpointState.IsPhaseCompleted | checkpoint.go:192-202 | True exactly when the phase is in the history. |
| Checkpoint.CheckpointState.GetUnfetchedDeviceIds | checkpoint.go:204-216 | The input ids that are not keys of the fetched map, in input order, duplicates kept. |
| Checkpoint.UnfetchedExact | checkpoint.go:204-216 | An id is reported unfetched exactly when it is in the input and not fetched, and then as many times as in the input. |
| Checkpoint.CheckpointState.GetFetchedDevices | checkpoint.go:218-227 | Each stored entry is visited exactly once: record i is the entry under the i-th of a list of distinct keys that is exactly the map's key set. So every stored record appears once per key holding it, and nothing else appears. |
| Checkpoint.CheckpointState.GetConfigHistory | checkpoint.go:229-233 | Returns the stored config histories. |
| Checkpoint.CheckpointState.GetUnprocessedGateways | checkpoint.go:235-245 | A gateway is returned exactly when it is a key of the bindings map and not processed, and each one at most once. |
| Checkpoint.CheckpointState.GetRemainingDevicesForMigration | checkpoint.go:247-258 | The devices whose id is not migrated, in order. |
| Checkpoint.CheckpointState.GetRemainingDevicesForConfig | checkpoint.go:260-271 | The devices whose id has no processed config, in order. |
| Checkpoint.RemainingAfter | checkpoint.go:247-271 | The loop shared by the two queries computes the devices whose id is not done, in order. |
| Checkpoint.RemainingExact | checkpoint.go:247-271 | A device remains exactly when it is in the input and its id is not done, and the remaining devices keep the input's order. |
| Checkpoint.ResumeLeavesLess | checkpoint.go:247-258 | Resuming from a later checkpoint never leaves more devices to migrate. It leaves strictly fewer when an input device was recorded in between. |
| Checkpoint.CheckpointState.Complete | checkpoint.go:273-290 | The new state is AfterComplete of the old one, and the call succeeds exactly when the save does. After a successful save, a successful removal leaves no file and a failed one leaves the saved state behind. A failed save leaves the file as FileAfterSave says. |
| Checkpoint.LoadCheckpoint | checkpoint.go:66-86 | No file means no state and no error. A read or parse failure returns the corresponding error. A stored file gives a new, clean state equal to the stored snapshot. |
| Checkpoint.InitializeCheckpointSystem | checkpoint.go:292-315 | A stored checkpoint is resumed as a new state object holding its snapshot with no unsaved changes, and the file is left as it was. A file that cannot be read or parsed is an error that changes nothing. With no file, a new fresh state is started and saved, and after a successful save it has no unsaved changes. A failed save is an error, and the file is as FileAfterSave says. |
| Devices.GetMissingDeviceIds | devices.go:148-162 | The requested ids that no fetched device carries, in request order, duplicates kept. |
| Devices.MissingIdsExact | devices.go:148-162 | An id is reported missing exactly when it was requested and no fetched device has it, and the report keeps request order. |
| Devices.ListDevices | devices.go:170-192 | An iteration ends cleanly exactly when its request is not failing, and then yields what the request selects. A failing one ends with the request's error after a prefix of the selection. |
| Devices.SelectedExact | devices.go:98-104 | A request without ids selects the whole registry. A request with ids selects exactly the registered devices it names, in registry order. |
| Devices.MissingAreUnregistered | devices.go:148-162 | For a request naming ids, the ids reported missing are exactly its unregistered ones, in request order. |
| Devices.SelectedCount | devices.go:184-186 | In a registry of unique ids, a request selects one device per distinct registered id it names. |
| Devices.DistinctCount | devices.go:184-186 | A list of distinct ids has as many ids as its set. |
| Devices.ShortExactlyWhenUnregistered | devices.go:184-186 | In a registry of unique ids, a request of distinct ids gets back at most as many devices as ids. It gets exactly as many when every id is registered, and only then. |
| Devices.RepeatedIdWarnsWithNoneMissing | devices.go:184-186 | A request naming one registered id twice gets one device back: the shortfall warning fires, yet lists no missing id. |
| Devices.FetchDevices | devices.go:164-204 | A request whose iteration fails ends with that iteration error (a fatal exit) and no warning. Otherwise it returns what the request selects. It warns exactly when the count differs from the number of ids asked for, and the warning lists the ids no returned device carries. |
| Devices.FetchRequestsAsWritten | devices.go:72-107 | The requests the batch loop makes as written, or None where a slice goes out of range. |
| Devices.AsWrittenPanicsExactly | devices.go:72-83 | The loop as written panics exactly when there are more than 10000 ids and their count is a multiple of 10000. |
| Devices.TwentyThousandIdsPanic | devices.go:74-78 | 20000 ids make the loop as written panic. |
| Devices.AsWrittenDisjoint | devices.go:76-83 | The slices as written never overlap. |
| Devices.AsWrittenCoverage | devices.go:74-83 | Index j is in some slice as written exactly when j is 0 or not a multiple of 10000. |
| Devices.AsWrittenSkipsId | devices.go:74-83 | For distinct ids whose count is over 10000 and not a multiple of it, the loop does not panic. Still, the id at 10000·m, for m ≥ 1, is in no request. |
| Devices.FifteenThousandIdsSkipOne | devices.go:74-83 | For 15000 distinct ids, the id at position 10000 is never requested. |
| Devices.AsWrittenLastBatchEmpty | devices.go:74-79 | For more than 10000 ids, the last slice as written is empty exactly when the count leaves remainder 1 by 10000. |
| Devices.AsWrittenRemainderOneFetchesAll | devices.go:76-79 | With that remainder, the empty last request lists the whole registry, so every registered device is fetched, named in the CSV or not. |
| Devices.FetchRequests | devices.go:72-107 | Corrected batching: the requests concatenate to the whole id list. At most 10000 ids make one request. More ids make ⌈n/10000⌉ non-empty requests of at most 10000 each. |
| Devices.FetchAll | devices.go:72-96 | A run of requests succeeds exactly when none of them fails. |
| Devices.FetchAllStep | devices.go:85-93 | One more request either ends the run with its error or appends what it selects. |
| Devices.FetchAllFailurePersists | devices.go:72-96 | Once a request fails, the later requests are never reached. |
| Devices.FetchAllExact | devices.go:72-96 | With no failing request and every request naming an id, the devices fetched are exactly the registered ones whose id some request names. |
| Devices.EmptyRequestFetchesAll | devices.go:98-104 | An empty CSV becomes one request without ids, which fetches the whole registry. |
| Devices.FetchDevicesFromCsv | devices.go:52-107 | Corrected batching. The requests concatenate to the CSV list: one request for up to 10000 ids, otherwise non-empty slices of at most 10000 each. The result is what those requests fetch in order, or the first iteration error. |
| Devices.FetchBatches | devices.go:72-96 | The batch loop fetches what FetchAll of its requests fetches: the devices in request order, or the first iteration error. |
| Devices.CsvFetchExact | devices.go:52-107 | For a non-empty CSV with no failing request, the corrected fetch returns exactly the registered devices the CSV names. |
| Devices.MaskPaths | devices.go:446-450 | The mask has "credentials" exactly when public keys are updated, and always has blocked, metadata, logLevel and gatewayConfig.gatewayAuthMethod. |
| Devices.UpdateMaskText | devices.go:446-450 | The mask text with keys is "credentials," followed by the text without them, and that text starts with "blocked,". |
| Devices.UpdateDevice | devices.go:442-476 | The patch is sent first, with the mask. The config is pushed exactly when config is not skipped and the patch succeeded. A patch error is returned with the registry unchanged. No device is created or lost. |
| Devices.UpdateDeviceNoFaults | devices.go:442-476 | Without faults, an existing device ends up as the upserted record, with the patch and optional push as its calls. A missing one fails with not-found and changes nothing. |
| Devices.ConflictRecognised | devices.go:381-394 | The destination's "already exists" error, with no response or a 409 response, is classified as already existing. |
| Devices.NonConflictsFail | devices.go:381-394 | A create error that does not mention Error 409, or that comes with a status other than 409, is a failure. |
| Devices.NotFoundRecognised | devices.go:310-312 | The destination's not-found error mentions "Error 404", the text the callers test for. |
| Devices.MigrateDevice | devices.go:373-414 | The task calls Create first, and patches exactly when the create error means "already exists". It logs nothing, or one error for this device in the create or patch context, and loses no device. |
| Devices.MigrateNewDevice | devices.go:373-414 | A device new to the destination is created from its record, with a single Create call and no log. |
| Devices.MigrateExistingDevice | devices.go:373-414 | Upsert: an existing device gets Create, Patch and the optional config push, logs nothing, and ends up as the upserted record. |
| Devices.MigrateFailures | devices.go:373-414 | A non-conflict create failure is logged with its own text and patches nothing. A conflict whose update fails is logged with the update's error. |
| Devices.ApplyMaskIdempotent | devices.go:442-476 | Applying the same patch twice equals applying it once. |
| Devices.UpsertedIdempotent | devices.go:442-476 | Upserting the same source record twice leaves what upserting it once leaves. |
| Devices.MigrateIdempotent | devices.go:373-414 | Without faults, running the task again leaves the destination as the first run left it, apart from the config version a repeated push creates, which is not modelled. |
| Devices.RunTasksSnoc | devices.go:396-414 | Each further task runs on the registry the earlier tasks left. |
| Devices.AddDevicesToClearBlade | devices.go:357-440 | The registry is the result of one task per transformed device, in order. The log gains exactly the failing results, and successes plus new log entries equal the number of devices. |
| Devices.SubmitTasks | devices.go:368-415 | One task per device, in order, one result per device. |
| Devices.ReceiveResults | devices.go:416-424 | Failing results are appended in arrival order; the others are counted. |
| Devices.TallyOrderIrrelevant | devices.go:416-424 | Any arrival order of the results gives the same logged failures, as a multiset, and the same success count. |
| Devices.AllRecordsMigrated | devices.go:357-440 | Without faults, every record ends up in the destination, no device is lost and nothing is logged. |
| Devices.AllMigratedWithoutFaults | devices.go:357-440 | Without faults, the same holds for every source device. |
| Gateways.CollectGateways | devices.go:264-268 | The devices with a gateway config of type GATEWAY, in order. |
| Gateways.GatewaysExact | devices.go:264-268 | A device is collected exactly when it has a GATEWAY config, and the gateways keep the input order. |
| Gateways.UnbindFromGatewayIfAlreadyExists | devices.go:231-257 | Corrected form, reading every page of the listing. A listing failure is returned as fatal, with nothing changed. Otherwise there is one unbind attempt per listed device, in order, and failed unbinds only skip that device. |
| Gateways.UnbindSnoc | devices.go:247-256 | One more listed device adds one unbind attempt on the registry the earlier ones left, and one more call. |
| Gateways.RemoveAfterWithout | devices.go:247-256 | Unbinding one more device removes it from what is left. |
| Gateways.UnbindAllKeepsOthers | devices.go:247-256 | Unbinding leaves the devices and every other gateway's bindings alone. |
| Gateways.UnbindAllEffect | devices.go:247-256 | When no unbind fails, exactly the listed devices lose their binding, and the others keep their order. |
| Gateways.UnbindListedClears | devices.go:231-257 | When no unbind fails, unbinding every page leaves the gateway with no bound device. Unbinding only the first page, as the single List call does, leaves exactly the bound devices that page does not name, which is none when the page holds every binding. |
| Gateways.MigrateBoundDevice | devices.go:310-352 | Corrected step. It panics (nil dereference) exactly when Get reports 404 and the device lacks the config or gateway config that transform dereferences. A non-404 Get error is logged and the device skipped after one Get call. After a 404 the calls are Get, Create and Bind; when Get finds the device, Get and Bind. No device is lost. |
| Gateways.AsWrittenNilDereference | devices.go:310-352 | For a transformable device missing from the destination, a successful create and a bind status other than 200, the step as written dereferences the nil Get response. The corrected step logs the non-200 entry for the listed id. |
| Gateways.AsWrittenAgrees | devices.go:310-352 | Given a destination keyed by id: wherever the step as written does not panic, it equals the corrected step. Wherever the corrected step panics, the step as written panics the same way. |
| Gateways.MigrateBoundDeviceNoFaults | devices.go:310-352 | Without faults, a device that is already in the destination or can be transformed ends up there and bound to the gateway. Nothing is logged, and other gateways are untouched. |
| Gateways.MigrateListedDevices | devices.go:296-353 | The iterator loop takes each listed device's step, in listing order, until a step panics. |
| Gateways.MigrateListedSnoc | devices.go:296-353 | Each further listed device's step runs on the registry the earlier steps left. A panic in it ends the loop with that panic. |
| Gateways.MigrateListedFailurePersists | devices.go:296-353 | Once a step panics, the later listed devices are never reached. |
| Gateways.ReconcileGateway | devices.go:284-353 | One gateway, in the corrected form that reads every page of the destination listing: unbind, or fail fatally. Then the listed devices' steps, or their panic. Then the iterator error, if any, logged without a device id. |
| Gateways.MigrateListedNoFaults | devices.go:296-353 | Without faults, and with every device the destination lacks transformable, the listed steps do not panic, log nothing and lose no device. |
| Gateways.MigrateListedBinds | devices.go:296-353 | Under the same conditions, the gateway gains exactly the listed devices' ids as bindings. |
| Gateways.MigrateListedBindsStep | devices.go:296-353 | The inductive step of the previous row, one listed device at a time. |
| Gateways.MigrateListedKeepsOthers | devices.go:296-353 | Under the same conditions, the listed steps leave other gateways' bindings alone. |
| Gateways.ReconcileListedEffect | devices.go:284-353 | Given no faults, a gateway present in the destination, a source listing that ends cleanly and every missing listed device transformable, reconciling from any destination listing logs nothing. The gateway ends bound to the source's devices plus the bound devices that listing missed, and other gateways are untouched. |
| Gateways.AsWrittenLeavesLaterPages | devices.go:231-257 | As written, under the same conditions, the gateway ends bound to the source's devices plus every destination binding beyond the first page. It converges exactly as intended when the first page holds every binding. |
| Gateways.AsWrittenKeepsExtraBinding | devices.go:236-256 | A gateway with one destination binding more than a page, the last one not bound in the source: as written it stays bound, and the corrected reconciliation unbinds it. |
| Gateways.ReconcileConverges | devices.go:279-353 | Given no faults, a gateway present in the destination, a listing that ends cleanly and every missing listed device transformable, reconciliation (corrected form) logs nothing. The gateway ends up bound to exactly the devices the source binds to it, whatever it had before, and other gateways are untouched. |
| Gateways.MigrateBoundDevicesToClearBlade | devices.go:259-355 | With no gateways nothing happens. A fatal failure (a listing failure or a panic) is reported exactly when one occurs. Otherwise the result is the gateways' reconciliations in order, with their entries appended to the function's own copy of the log. |
| Gateways.ReconcileAllSnoc | devices.go:279-354 | Each further gateway's reconciliation follows those before it, and an earlier failure ends the run. |
| Gateways.FailurePersists | devices.go:237-241 | A fatal failure on an earlier gateway ends the whole run. |
| Gateways.ReconcileAllConverges | devices.go:259-355 | Given no faults, every gateway in the destination, clean listings and every missing listed device transformable, nothing is logged and each gateway is bound to exactly its source devices (corrected form). |
| Utils.ReadInput | utils.go:69-83 | A read error is passed on. A line is returned with one trailing "\n" and then one trailing "\r" removed. |
| Utils.TrimLineEndings | utils.go:79-80 | Both "\r\n" and "\n" endings are removed, and text without an ending is unchanged. |
| Utils.TrimLineRemovesOnlyOne | utils.go:79-80 | Only one "\r" is removed: a doubled one keeps one. |
| Utils.GetAbsPath | utils.go:135-152 | The empty path stays empty. A path not starting with '~' loses one trailing "\r". "~" alone or followed by a separator is joined to the home directory. "~" followed by anything else is an error. |
| Utils.IsValidRegion | utils.go:127-133 | True exactly for us-central1, asia-east1 and europe-west1. |
| Utils.GetUri | utils.go:115-125 | The sandbox gets the sandbox URI. Otherwise the call succeeds exactly for a valid region, with https://<region>.clearblade.com. |
| Utils.GetUriRoundTrip | utils.go:115-125 | The region is recovered from its URI, so different regions get different URIs. |
| Utils.GetTimeString | utils.go:214-219 | The epoch gives the empty string; any other time gives its RFC 3339 text. |
| Utils.GetTimeStringEmpty | utils.go:214-219 | Since RFC 3339 text is never empty, the empty string means exactly "no time". |
| Utils.CbDeviceOf | utils.go:154-212 | The record takes the source id as both its id and its name. |
| Strings.NatToStringRoundTrip | utils.go:194-194 | The decimal text the record gets for numId reads back to the number: the rendering loses nothing. |
| Utils.CredentialsOfShape | utils.go:156-167 | One destination credential per source credential, in order. |
| Utils.TransformRules | utils.go:154-212 | Id and name are the source id. Credentials come over only when public keys are updated, one per source credential with its key and expiry. A missing state or error status gives the empty value. |
| Utils.Transform | utils.go:154-212 | The loop that builds the credentials, then the record, computes CbDeviceOf. |
| Utils.TransformAll | utils.go:154-212 | One record per device, in order, each with its device's id. |
| Utils.TransformAllSnoc | utils.go:154-212 | Transforming one more device appends its record. |
| Types.ErrorLogger.constructor | types.go:32-37 | A new logger is empty. |
| Types.ErrorLogger.AddError | types.go:39-45 | Appends exactly one entry with the given context, error and device id. |
| Types.ErrorLogger.AddErrorLog | types.go:47-51 | Appends exactly the given entry. |
| Types.ErrorLogger.WriteToFile | types.go:53-96 | Writes nothing exactly when the log is empty. Otherwise writes the header and then one row per entry, in order, with an empty cell for a nil error. |
| Types.CsvRowsShape | types.go:78-93 | The CSV has the header first and, at position i + 1, the row of entry i. |
| Types.RowsShape | types.go:83-93 | One row per entry, in order. |
| Types.RowsAppend | types.go:83-93 | Logging one more entry adds exactly one row, at the end, and changes no earlier row. |
| Types.Counter.constructor | types.go:103-108 | A new counter is zero. |
| Types.Counter.Increment | types.go:110-114 | Adds one. |
| Types.Counter.Count | types.go:116-120 | Returns the count and changes nothing. |
| Types.Counter.SetCount | types.go:122-126 | Sets the count. |

## Left out

- I/O: standard input, files, CSV parsing, stdout messages and progress bars. The read line,
  file outcomes and the source listings are parameters.
- The checkpoint's mutex, its autosave timer, its time stamps and its JSON encoding. The
  ErrorLogger's and the counter's mutexes are left out too.
- workers.go and the concurrent submission of tasks. The tasks run one after another on one
  registry value. The order in which results arrive is covered by `Devices.TallyOrderIrrelevant`.
- Base64 encoding of config and state payloads, which are carried as raw bytes.
- The RFC 3339 rendering of a time stamp, which is carried with the time stamp.
- Decimal rendering is modelled; the enum `String()` is a fixed table.
- Fetching and posting config history (`updateConfigHistory`), fetchAllDevices,
  deleteAllFromCbRegistry and the registry clients' construction are not part of this model.
- `log.Fatal*` exits and panics are modelled as returned errors.
- Checkpoint.MigrationPhase: checkpoint.go:15 declares the phase as an open string type, and
  LoadCheckpoint accepts any text in the file. The model has exactly the five named phases, so a
  file holding some other phase name cannot be represented.
- The source registry's request order is an assumption: a ListDevices request with ids is taken
  to yield the registered devices it names once each, in registry order. The service's actual
  order and its handling of repeated ids are not visible in the code.
- An iteration fault is attached to a request by its id list, so two identical requests fail
  alike; a fault that depends on time or paging is not modelled.
- Devices.FetchDevicesFromCsv: the shortfall warning of each request is only printed, so the
  method does not return it; `Devices.FetchDevices` states it.
- Devices.FetchDevices: config history fetching (`Args.configHistory`) and the progress bar's
  fatal errors are not part of this model.
- Gateways.MigrateBoundDevicesToClearBlade: the function appends to its own copy of the
  caller's log slice, so the caller never sees the entries. The model returns that copy as
  `localLogs` and does not claim the caller receives it.
- Types.Counter: Go's 64-bit int is modelled as an unbounded integer; wrap-around after 2^63
  increments is not modelled.
- Checkpoint.CheckpointState.GetFetchedDevices: Go's map order is unspecified, so the contract
  fixes no order.
- Checkpoint.CheckpointState.GetUnprocessedGateways: for the same reason, no order is fixed.
- Checkpoint.CheckpointState.Complete: it records "complete" rather than the phase it leaves,
  so after SetPhase(gateway_binding) and Complete the history lacks gateway_binding. The model
  keeps this (`Checkpoint.CompleteHistory`).
- transform dereferences the device's Config and GatewayConfig without a nil check
  (utils.go:171-182). Both are optional in `Iot.Device`, and `Iot.Transformable` says both are
  present. In the gateway step only the 404 branch transforms, and a device lacking either panics there
  (`Gateways.MigrateBoundDevice` fails with the nil-dereference message).
- Devices.AddDevicesToClearBlade: every task transforms its device before its first call
  (devices.go:444, devices.go:479), so a device lacking either pointer panics inside a worker
  and ends the process. The method, `Devices.SubmitTasks`, `Utils.TransformAll` and
  `Devices.AllMigratedWithoutFaults` require every device to be transformable
  (`Iot.Transformable`) and do not model that panic.
- Devices.MigrateIdempotent: updateDevice pushes the config with VersionToUpdate 0
  (devices.go:459-465), and the service records a new config version for every push. The model's
  `Registry.ModifyConfig` replaces only the payload and keeps the version. So the lemma is exact
  only when config pushes are skipped; with them, a rerun is idempotent up to the config version.
  `Devices.MigrateExistingDevice` shows that each rerun then makes one more ModifyConfig call.
- The destination registry's behaviour is an abstraction of the service: its rules are written
  in `registry.dfy` and failures are injected through `Faults`.
- Gateways.UnbindFromGatewayIfAlreadyExists: the source reads only the first page of the
  destination's bound-device listing (devices.go:236). The method, `Gateways.Reconcile` and the
  whole-run loop model the corrected form, which reads every page; the first-page behaviour is
  `Gateways.ReconcileAsWritten`, and "## Findings" records the difference. The service's default
  page size is not visible in the code, so it is a field of the registry value (`pageSize`).
- Utils.GetAbsPath: the home directory lookup and `filepath.Join` are parameters. The current
  user's lookup failure is not modelled.
- Types.ErrorLogger.WriteToFile: the failures to create the file or to flush the CSV writer are
  not modelled.

## Findings

| source | as written | input that shows it | evidently intended | confidence | as-written member | corrected member |
|---|---|---|---|---|---|---|
| devices.go:76-83 | Every batch after the first starts at 1 + i·10000, so the id at index 10000·i is in no request. | 15000 distinct ids: the id at index 10000 is never fetched. | Consecutive slices [i·10000, min(n, (i+1)·10000)). | not executed | Devices.AsWrittenSkipsId | Devices.FetchRequests |
| devices.go:74-78 | maxIterations is ⌊n/10000⌋ + 1, so for n a multiple of 10000 the last slice starts at n + 1. | 20000 ids: deviceIds[20001:] is out of range and the process panics. | ⌈n/10000⌉ batches, with the last ending at n. | not executed | Devices.TwentyThousandIdsPanic | Devices.FetchDevicesFromCsv |
| devices.go:76-79 | For n > 10000 with n % 10000 == 1, the last slice deviceIds[1+i·10000:] is empty, and a ListDevices request without ids lists the whole registry. | 10001 ids: every device of the registry is fetched, named in the CSV or not. | Every request names at least one id, so only CSV devices are fetched. | not executed | Devices.AsWrittenRemainderOneFetchesAll | Devices.CsvFetchExact |
| devices.go:236-256 | One List call with no page size and no next-page token, so only the first page of the destination's bindings is unbound. | A gateway with one destination binding more than the service's default page size, the last one not bound in the source: it stays bound after reconciliation. | Follow the next-page token and unbind every binding, so the gateway ends bound to exactly the source's devices. | not executed | Gateways.AsWrittenKeepsExtraBinding | Gateways.ReconcileConverges |
| devices.go:345-352 | The non-200 entry reads getDeviceResp.Id, which is nil after Get failed with 404. | A device missing from the destination, created, then bound with a 2xx status other than 200: nil dereference. | Log the device by the id the source listed (resp.Id). | not executed | Gateways.AsWrittenNilDereference | Gateways.MigrateBoundDevice |
