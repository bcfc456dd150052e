# Profiling collector core, modelled in Dafny

This project models the bookkeeping core of a continuous-profiling system for
Go services on Kubernetes. A collector scrapes `net/http/pprof` endpoints on a
schedule. It also ingests OpenTelemetry (OTLP) profiles pushed by an eBPF
profiler. Every profile goes into a label-indexed file store that merges each
new profile into the latest file under its key. An operator-side controller
turns `PprofMonitor` resources into the collector's configuration.

The modules and what they model:

| module (file) | models |
|---|---|
| `Ingest` (`src/ingest.dfy`), `Otlp`, `Pprof` | The OTLP ingester. It covers function IDs, the conversion of an OTLP profile's flat tables into a pprof profile, the split of samples per process, the per-process store key, and the handler's rejection count and error message. |
| `Storage` (`src/storage.dfy`) | The label-based file store, covering base paths, merge-on-write `Put`, `Get` and `ListKeys`. It also models the no-op store. |
| `Monitor` (`src/monitor.dfy`) | The scrape monitor: request URLs, the fixed request plan built from a sampling config, the `Start`/`Shutdown` lifecycle, and one iteration of the collection loop. |
| `Collector` (`src/collector.dfy`) | The collector: the monitor list with the optional `__self` monitor, the internal pprof server, and `Start`, `Shutdown` and `Reload`. |
| `Config` (`src/config.dfy`) | The sampling configuration and its `DeepCopyInto`. |
| `MonitorController` (`src/controller.dfy`) | The `PprofMonitor` controller: namespace selection, port matching, scrape URLs, and the sorted collector configuration. |
| `V1alpha1` (`src/image.dfy`) | `GenericImage.ImageStr` and a reference parser that reads its output back, and the API types the controller reads (`NamespaceSelector`, `Endpoint`, `IntOrString`). |
| `Hack` (`src/hack.dfy`) | `SplitPathToMd`. |
| `Common` (`src/common.dfy`) | The operator's resource names. |
| `Text`, `Wrappers` | Helpers for the Go standard library operations the core relies on, such as string order, sorting, splitting, joining, trimming and integer formatting and parsing. `Wrappers` holds `Option` and `Result`. |

The model is faithful to the code in a few places where a reader might expect
otherwise:
- **Storage.** `Put` never deletes the previous file. A merge is written as
  `{oldStart}_{end}` next to the old `{oldStart}_{oldEnd}` file.
  `Storage.PutTwiceSameEnd` shows that two `Put`s with the same end time
  leave one file holding the merge. The second half of
  `pkg/collector/storage/storage_test.go` (lines 49-68) expects two files
  there; the model follows the code.
- **Monitor.** The mutex request takes the goroutine sampler's seconds, and
  the thread-creation request's path is spelled `threadcrate`.
- **Ingest.** Every converted line has its `Column` equal to its `Line`.
- **Controller.** An empty `Endpoint.Path` appends nothing to the scrape
  address. The field's documentation (`pkg/operator/apis/v1alpha1/types.go:124-126`)
  says it defaults to `/debug/pprof`. A non-blank path appends
  `/<path>/debug/pprof`, so the monitor's request path ends in
  `/debug/pprof/debug/pprof/profile` (`MonitorController.ScrapeUrl`).

State that the source changes in place is modelled with classes:
- the file store's file map and directory set;
- the monitor's stopper channel and cancel function;
- the collector's monitors, pprof server and configuration;
- the sampling configuration's sampler pointers.

The loops of the source are methods with loop invariants. Each one either
states outright what it computes (a maximum, a set of keys) or is proved
equal to a specification function, and the properties are proved about those
functions. The ingest handler's three nested loops, for example, are proved
equal to `Ingest.HandleSpec`, which runs the "all"-key path over the
request's profiles one after another. The counting lemmas are proved about
that function.

## Model

| member | source | states |
|---|---|---|
| Ingest.Int32 | pkg/collector/ingest/ingest.go:278 | Go's `int32` conversion yields an `int32` value and leaves values already in range unchanged |
| Ingest.Uint64 | pkg/collector/ingest/ingest.go:278 | Go's `uint64` conversion yields a value in [0, 2^64) and leaves values already in range unchanged |
| Ingest.Pow10AtLeast | pkg/collector/ingest/ingest.go:276 | the smallest power of ten that is at least n |
| Ingest.IdFactor | pkg/collector/ingest/ingest.go:272-277 | the multiplier is 10 for a string table of at most 10 entries, else the smallest power of ten not below the table length |
| Ingest.UniqueFunctionId | pkg/collector/ingest/ingest.go:271-279 | the ID is always a `uint64` value, whatever the wrap-around |
| Ingest.UniqueFunctionIdValue | pkg/collector/ingest/ingest.go:271-279 | for in-range, non-negative indices that do not overflow `int32`, the ID is `nameIdx + factor*systemIdx + 1`, hence at least 1 |
| Ingest.UniqueFunctionIdInjective | pkg/collector/ingest/ingest.go:271-279 | under those bounds, distinct (name, system name) index pairs get distinct IDs |
| Ingest.DistinctDigits | pkg/collector/ingest/ingest.go:278 | two-digit numbers in base f with distinct digit pairs differ |
| Ingest.KeptFunctionsSpec | pkg/collector/ingest/ingest.go:281-339 | the function table holds exactly the resolved non-empty input functions, and none of them has an empty name, file name and system name at once |
| Ingest.ResolveLinesSpec | pkg/collector/ingest/ingest.go:372-389 | every line of a location names a function of the function table, and its Column equals its Line |
| Ingest.ResolveLinesCount | pkg/collector/ingest/ingest.go:372-389 | a location keeps at most its input lines, and all of them when no line names an empty function |
| Ingest.ConvertedReferencesResolve | pkg/collector/ingest/ingest.go:341-476 | every sample's k-th location ID is `locationIndices[start+k]+1` and names the location built from that entry; location IDs are 1-based positions; mapping IDs are 0 or name a mapping; lines name functions |
| Ingest.ConvertSampleTypes | pkg/collector/ingest/ingest.go:300-305 | sample types are resolved through the string table one for one, in order |
| Ingest.ConvertFunctions | pkg/collector/ingest/ingest.go:307-333 | the function table is the in-order list of resolved non-empty functions |
| Ingest.ConvertMappings | pkg/collector/ingest/ingest.go:341-354 | one mapping per input mapping, with ID = 1-based position and the file name resolved |
| Ingest.ConvertLines | pkg/collector/ingest/ingest.go:372-389 | a location's lines are its input lines of non-empty functions, in order |
| Ingest.ConvertLocations | pkg/collector/ingest/ingest.go:356-391 | one location per input location, with ID = position + 1 and the mapping ID from a non-negative mapping index |
| Ingest.ConvertSample | pkg/collector/ingest/ingest.go:410-474 | a sample's values are copied and its stack is `locationIndices[start : start+length]`, each plus 1, in order |
| Ingest.ConvertSamples | pkg/collector/ingest/ingest.go:393-476 | one converted sample per input sample, in order |
| Ingest.Convert | pkg/collector/ingest/ingest.go:289-489 | the result is the resolved profile `Converted(p)`, about which the lemmas above are proved |
| Ingest.Copies | pkg/collector/ingest/ingest.go:147-157 | each copy is the profile with its samples replaced by one sample |
| Ingest.SplitSpecGroups | pkg/collector/ingest/ingest.go:133-165 | a pid is a key exactly when some sample carries it, and its entry is one single-sample copy per such sample, in sample order |
| Ingest.SamplesWithPidSpec | pkg/collector/ingest/ingest.go:135-146 | a sample is grouped under a pid exactly when it is a sample of the profile whose last `process.pid` attribute has that value; samples without one are dropped |
| Ingest.SplitSpecEntriesOk | pkg/collector/ingest/ingest.go:152-157 | the copies keep the attribute table, so their attribute lookups stay in range |
| Ingest.SplitByPid | pkg/collector/ingest/ingest.go:133-165 | the map built by the loop is the grouping described above |
| Ingest.ThreadNamesNoSlash | pkg/collector/ingest/ingest.go:189-194 | no collected thread name contains '/' |
| Ingest.CollectSampleNames | pkg/collector/ingest/ingest.go:188-199 | the thread names of one profile's samples, in sample order |
| Ingest.CollectAttrNames | pkg/collector/ingest/ingest.go:189-198 | the `thread.name` values among one sample's attributes, in order, with '/' replaced by '-' |
| Ingest.CollectThreadNames | pkg/collector/ingest/ingest.go:184-200 | the thread names of a pid's profiles, in order, with '/' replaced by '-' |
| Ingest.PidKeyNoSlash | pkg/collector/ingest/ingest.go:224-225 | the per-pid key is a single path segment |
| Ingest.PidKeyLayout | pkg/collector/ingest/ingest.go:224-225 | the key is `pid-<pid>-` followed by the thread names joined by '-'; each name appears once, the names follow the order of their first occurrence, and the first thread name leads |
| Ingest.KeyHeadDetermines | pkg/collector/ingest/ingest.go:225 | the pid part of a key is determined by the key |
| Ingest.PidKeyInjective | pkg/collector/ingest/ingest.go:183-225 | different pids get different keys, whatever their thread names |
| Ingest.PidKeys | pkg/collector/ingest/ingest.go:182-225 | the keys are exactly the pids of the split, each key computed from that pid's profiles, and each with a `pid-<pid>-` prefix and no '/' |
| Ingest.KeysOf | pkg/collector/ingest/ingest.go:183-225 | the key of every pid of a split, from its profiles' thread names |
| Ingest.JoinNonEmpty | pkg/collector/ingest/ingest.go:260-264 | joined non-empty messages are empty exactly when there are none |
| Ingest.BadCountAppend | pkg/collector/ingest/ingest.go:171-259 | failure counts add up over concatenated profile lists |
| Ingest.OtlpIngester.constructor | pkg/collector/ingest/ingest.go:47-52 | the ingester keeps the store it is given |
| Ingest.StoreAllSpecShift | pkg/collector/ingest/ingest.go:233-256 | one profile is rejected at most once, and its outcome does not depend on the rejections counted before it |
| Ingest.HandleSpecCounts | pkg/collector/ingest/ingest.go:233-256 | every profile that fails validation or serialisation is rejected, no profile is rejected twice, and each profile that gets past serialisation reads the clock exactly twice |
| Ingest.HandleSpecShift | pkg/collector/ingest/ingest.go:171-256 | the rejected count only adds up: starting from n rejections adds n to the outcome and changes nothing else |
| Ingest.HandleSpecAppend | pkg/collector/ingest/ingest.go:171-258 | handling a + b is handling a and then b from the disk, clock and count a left |
| Ingest.OtlpIngester.StoreAll | pkg/collector/ingest/ingest.go:233-256 | a profile that fails validation or serialisation yields a non-empty error before the clock is read and leaves the store unchanged. Otherwise the clock is read twice and the store changes exactly as `Put` of those start and end readings under key "all", type "profile" and labels namespace=ebpf-local, name=host; an error is returned exactly when that `Put` fails |
| Ingest.OtlpIngester.StoreProfiles | pkg/collector/ingest/ingest.go:180-257 | the store, the clock readings and the number of errors are exactly those of handling the scope's profiles in order (`HandleSpec`): one non-empty error per rejected profile |
| Ingest.OtlpIngester.StoreScopes | pkg/collector/ingest/ingest.go:179-258 | the same over the profiles of every scope of a resource, scopes in order |
| Ingest.OtlpIngester.HandleEbpfCollectorProfile | pkg/collector/ingest/ingest.go:168-269 | the store ends as `HandleSpec` of the request's profiles in order, with clock readings numbered from 0. `RejectedProfiles` is its rejected count, one per failed profile, which lies between the number of profiles that fail validation or serialisation and the number of profiles. The error message is empty exactly when nothing was rejected |
| Storage.IndexValues | pkg/collector/storage/storage.go:49-54 | an error exactly when some index label is missing; otherwise the index labels' values, in order |
| Storage.IndexValuesFirstMissing | pkg/collector/storage/storage.go:49-52 | the error names the first missing index label |
| Storage.IndexValuesStep | pkg/collector/storage/storage.go:49-54 | a present label extends the values by its value |
| Storage.JoinAllStep | pkg/collector/storage/storage.go:53 | joining one more segment is one more `path.Join` |
| Storage.IndexedDir | pkg/collector/storage/storage.go:48-54 | the loop returns the error for a missing label, else the directory with the index values joined in order |
| Storage.BasePathLayout | pkg/collector/storage/storage.go:43-57 | with every index label present and non-empty, the base path is `DataDir/profileType/v1/…/vn/key` |
| Storage.FileName | pkg/collector/storage/storage.go:68-98 | a file name is a single non-empty path segment |
| Storage.FileNameStart | pkg/collector/storage/storage.go:91-94 | the text before the first '_' of `{start}_{end}` parses back to start |
| Storage.FilesUnder | pkg/collector/storage/storage.go:74-82 | the files under a directory are files of the store |
| Storage.DirsOf | pkg/collector/storage/storage.go:70 | creating a directory creates it and its ancestors |
| Storage.JoinSnoc | pkg/collector/storage/storage.go:53-55 | a joined path grows by "/" and the new segment |
| Storage.JoinAllIsJoin | pkg/collector/storage/storage.go:48-55 | successive `path.Join`s of non-empty segments equal one '/'-join |
| Storage.JoinAllPrefix | pkg/collector/storage/storage.go:48-53 | joining a first segment then the rest equals joining them all |
| Storage.BaseOfJoin | pkg/collector/storage/storage.go:91 | `path.Base` of a joined file returns its name |
| Storage.JoinIsUnder | pkg/collector/storage/storage.go:111 | the written file lies under the base path |
| Storage.PutMergesIntoLatest | pkg/collector/storage/storage.go:87-114 | with files present, the greatest one's start is kept and `Merge(old, new)` is written to `{oldStart}_{end}`; nothing else changes |
| Storage.PutWritesOneFileBelowBase | pkg/collector/storage/storage.go:70-114 | `Put` creates the base directory, never removes a file, changes no file on failure (the base directories are still created, as `MkdirAll` runs first) and writes one file below the base path on success |
| Storage.PutKeepsOtherFiles | pkg/collector/storage/storage.go:111-114 | every earlier file survives, and files outside the base path keep their contents |
| Storage.PutTwice | pkg/collector/storage/storage.go:87-114 | the first `Put` on an empty key writes the value verbatim, and a second one merges into a new file next to it |
| Storage.PutTwiceSameEnd | pkg/collector/storage/storage.go:87-114 | two `Put`s with the same end leave one file holding the merge |
| Storage.FirstPutDeepestKey | pkg/collector/storage/storage.go:119-151 | after the first `Put` into a fresh store the only key listed is `/profileType/labels…/key` |
| Storage.MaxDepth | pkg/collector/storage/storage.go:137-142 | the maximum separator count over the walked directories |
| Storage.TrimmedAtDepth | pkg/collector/storage/storage.go:143-149 | exactly the directories at that depth, with the data directory prefix trimmed, each once |
| Storage.LabelBasedFileStore.constructor | pkg/collector/storage/storage.go:33-39 | the store keeps its data directory, index labels and merger |
| Storage.LabelBasedFileStore.BasePath | pkg/collector/storage/storage.go:43-57 | the result is the base path or the missing-label error |
| Storage.LabelBasedFileStore.SortedFilesUnder | pkg/collector/storage/storage.go:73-87 | the files under a directory, recursively, sorted ascending and without repeats |
| Storage.LabelBasedFileStore.Put | pkg/collector/storage/storage.go:59-116 | a missing index label yields an error and no change; otherwise the store's files and directories change exactly as the `Put` specification says |
| Storage.LabelBasedFileStore.Get | pkg/collector/storage/storage.go:154-172 | fails exactly when nothing exists at `DataDir/profileType/key`. For a directory it returns every file under it, recursively, sorted ascending; for a regular file, that path alone |
| Storage.LabelBasedFileStore.ListKeys | pkg/collector/storage/storage.go:119-152 | fails exactly when nothing exists at the data directory. For a directory it returns exactly the deepest directories with the data directory trimmed, each once; for a regular file, no keys |
| Storage.FreshDirectory | pkg/collector/storage/storage_test.go:15-24 | a fresh temporary directory has no directory below it |
| Storage.TestBasePath | pkg/collector/storage/storage_test.go:25-37 | the test's labels and key give the path the test expects |
| Storage.TestIndexValues | pkg/collector/storage/storage_test.go:25-37 | the test's index labels resolve to "default" and "example1" |
| Storage.TestJoin | pkg/collector/storage/storage_test.go:25-37 | the test's path segments join to the expected path |
| Storage.TestPut | pkg/collector/storage/storage_test.go:25-46 | the first `Put` of the test writes exactly one file, holding the value verbatim |
| Storage.StorageTestScenario | pkg/collector/storage/storage_test.go:15-73 | after the first `Put`, `Get` returns that one file and `ListKeys` returns exactly `/profile/default/example1/pod/example1` |
| Storage.NoopStore.Put | pkg/collector/storage/noop.go:13-15 | always succeeds |
| Storage.NoopStore.ListKeys | pkg/collector/storage/noop.go:17-19 | an empty list and no error |
| Storage.NoopStore.GroupKeys | pkg/collector/storage/noop.go:21-23 | an empty map and no error |
| Storage.NoopStore.Get | pkg/collector/storage/noop.go:25-27 | an empty list for any profile type and key |
| Storage.NoopGetAfterPut | pkg/collector/storage/noop.go:13-27 | `Get` is still empty after a `Put` |
| Monitor.ValidUrlAppend | pkg/collector/monitor/monitor.go:48-52 | a concatenated URL is valid exactly when both parts are |
| Monitor.ConstructRequest | pkg/collector/monitor/monitor.go:47-60 | the request's profile type is its suffix and its URL starts with `endpoint/debug/pprof/suffix`; it fails exactly when the URL is invalid |
| Monitor.ConstructRequestSeconds | pkg/collector/monitor/monitor.go:49-51 | the `?seconds=N` query reads back N, and is absent when N is 0 |
| Monitor.QuerySecondsOf | pkg/collector/monitor/monitor.go:49-51 | the seconds query round-trips |
| Monitor.ConstructRequestErr | pkg/collector/monitor/monitor.go:47-55 | for the seven kinds, construction fails exactly when the endpoint is not a valid URL |
| Monitor.SecondsQueryIsValid | pkg/collector/monitor/monitor.go:49-51 | the seconds query never invalidates a URL |
| Monitor.KindIsValid | pkg/collector/monitor/monitor.go:66-108 | the kind names never invalidate a URL |
| Monitor.Plan | pkg/collector/monitor/monitor.go:62-121 | seven planned kinds, one per sampler field |
| Monitor.PlanKindNames | pkg/collector/monitor/monitor.go:65-113 | the plan's kinds are allocs, block, goroutine, heap, mutex, profile and threadcrate, in that order |
| Monitor.PlanKinds | pkg/collector/monitor/monitor.go:65-113 | the enabled kinds are the kinds of the non-nil samplers, in that order |
| Monitor.ProfileTypes | pkg/collector/monitor/monitor.go:56-59 | the profile types of a request list, in order |
| Monitor.BuildRequests | pkg/collector/monitor/monitor.go:62-123 | the requests' profile types are the enabled kinds, in order |
| Monitor.BuildRequestsErr | pkg/collector/monitor/monitor.go:66-69 | building fails exactly when some enabled request fails to construct |
| Monitor.EnabledIsSubsequence | pkg/collector/monitor/monitor.go:62-123 | every requested kind comes from a non-nil sampler |
| Monitor.EnabledAppend | pkg/collector/monitor/monitor.go:62-123 | enabled kinds distribute over a split plan |
| Monitor.EnabledNonEmpty | pkg/collector/monitor/monitor.go:62-123 | some kind is enabled exactly when some sampler is set |
| Monitor.EnabledAll | pkg/collector/monitor/monitor.go:62-123 | with every sampler set, every kind is enabled, in order |
| Monitor.RequestKinds | pkg/collector/monitor/monitor.go:62-123 | one request per non-nil sampler, in the fixed order |
| Monitor.NoTraceRequest | pkg/collector/monitor/monitor.go:114-121 | trace is never requested |
| Monitor.NoSamplingNoRequests | pkg/collector/monitor/monitor.go:62-123 | with no sampler set, no request is built |
| Monitor.BuildRequestsNone | pkg/collector/monitor/monitor.go:62-123 | a plan with nothing enabled builds no request |
| Monitor.BuildRequestsOne | pkg/collector/monitor/monitor.go:62-123 | a plan with one enabled kind builds exactly that request |
| Monitor.ProfileRequestUrl | pkg/collector/monitor/monitor.go:48-51 | the 5-second CPU profile URL is `endpoint/debug/pprof/profile?seconds=5` |
| Monitor.MutexUsesGoroutineSeconds | pkg/collector/monitor/monitor.go:93-99 | the mutex request is built with the goroutine sampler's seconds |
| Monitor.RequestIn | pkg/collector/monitor/monitor.go:62-123 | every enabled kind's request is among the built requests |
| Monitor.RequestsFailOnlyForBadEndpoint | pkg/collector/monitor/monitor.go:62-123 | building fails exactly when the endpoint is invalid and some sampler is set |
| Monitor.Channel.constructor | pkg/collector/monitor/monitor.go:144 | a new stopper channel is open |
| Monitor.CancelFunc.constructor | pkg/collector/monitor/monitor.go:142 | a new cancel function has not been called |
| Monitor.Monitor.constructor | pkg/collector/monitor/monitor.go:31-40 | a new monitor has no stopper, no cancel function and no running request |
| Monitor.Monitor.Start | pkg/collector/monitor/monitor.go:126-183 | on a monitor that is not running, a request-building error is returned with nothing started; otherwise a fresh open stopper and cancel function are installed and one worker runs per request |
| Monitor.Monitor.Shutdown | pkg/collector/monitor/monitor.go:185-201 | cancels and closes whatever was started and is a no-op before any `Start`; a second Shutdown is excluded by the precondition, because closing the closed channel panics in the source |
| Monitor.Monitor.GuardedShutdown | pkg/collector/monitor/monitor.go:185-201 | the corrected Shutdown: callable in any state, a repeated call included, it succeeds and leaves the context cancelled and the channel closed |
| Monitor.Monitor.CollectOnce | pkg/collector/monitor/monitor.go:150-179 | a closed stopper cancels and stops; a body is stored by `Put` under the monitor's name and labels, and the loop goes on even if `Put` fails; a read failure retries without storing; a request failure goes on without storing |
| Monitor.LifecycleTest | pkg/collector/monitor/lifecycle_test.go:19-40 | ten alternating `Start`/`Shutdown` calls all succeed |
| Collector.PprofServer.constructor | pkg/collector/start.go:48-51 | the server keeps its address |
| Collector.ConfigsOf | pkg/collector/start.go:119-122 | the configurations of a monitor list, in order |
| Collector.SelfMonitorOk | pkg/collector/start.go:63-96 | the `__self` monitor sets the goroutine sampler its mutex request needs, and its endpoint is a valid URL |
| Collector.SelfMonitorRequestsEverything | pkg/collector/start.go:63-96 | the `__self` monitor requests all seven kinds |
| Collector.MonitorConfigsOk | pkg/collector/start.go:45-121 | every monitor in the list has a mutex request it can build |
| Collector.NewMonitors | pkg/collector/start.go:119-121 | one fresh, unstarted monitor per configuration, in order |
| Collector.StartAll | pkg/collector/start.go:123-126 | every monitor is started, whether its `Start` fails or not, and can be shut down |
| Collector.Collector.constructor | pkg/collector/start.go:29-38 | a new collector has its configuration, no server and no monitors |
| Collector.Collector.Start | pkg/collector/start.go:40-128 | returns no error; with self-telemetry it installs a fresh server at `127.0.0.1:<port>` and the `__self` monitor first; the configured monitors follow in order and replace the list |
| Collector.Collector.Shutdown | pkg/collector/start.go:130-155 | shuts down every monitor (with the corrected per-monitor shutdown, so also after a failed shutdown); clears the server only when it shuts down cleanly, whose failure is the only error; keeps the configuration and the monitor list |
| Collector.Collector.Reload | pkg/collector/start.go:157-167 | a failed shutdown leaves the configuration and monitors as they were, their channels closed, and returns the error; otherwise the new configuration's monitors are started |
| Collector.FailedReloadClosesSelfMonitor | cmd/collector/main.go:124-140 | after a Reload whose server shutdown fails, the self monitor's channel is closed, so the monitors can no longer all be shut down by the unguarded `Monitor.Shutdown` |
| Collector.RetryAfterFailedReload | cmd/collector/main.go:124-140 | with the corrected shutdown, a failed Reload is followed by a successful Reload and a successful Shutdown |
| Collector.LifecycleTest | pkg/collector/likecyle_test.go:22-160 | `Start`, then `Reload`, then `Shutdown` all succeed for any pair of valid configurations |
| Config.SamplerConfig.constructor | pkg/config/sampler.go:3-37 | a sampler keeps its seconds |
| Config.CopySampler | pkg/config/sampler.go:42-45 | a nil sampler stays nil; any other is copied to a fresh one with the same seconds |
| Config.GlobalSamplingConfig.constructor | pkg/config/sampler.go:3-37 | a zero configuration has no samplers |
| Config.GlobalSamplingConfig.DeepCopyInto | pkg/config/sampler.go:40-74 | every sampler field of `out` has the same seconds as the original's and is freshly allocated when set; Compression is copied; the original is unchanged |
| Config.GlobalSamplingConfig.CopyAllocsInto | pkg/config/sampler.go:42-45 | the allocs sampler is copied without aliasing |
| Config.GlobalSamplingConfig.CopyBlockInto | pkg/config/sampler.go:46-49 | the block sampler is copied without aliasing |
| Config.GlobalSamplingConfig.CopyGoroutineInto | pkg/config/sampler.go:50-53 | the goroutine sampler is copied without aliasing |
| Config.GlobalSamplingConfig.CopyHeapInto | pkg/config/sampler.go:54-57 | the heap sampler is copied without aliasing |
| Config.GlobalSamplingConfig.CopyMutexInto | pkg/config/sampler.go:58-61 | the mutex sampler is copied without aliasing |
| Config.GlobalSamplingConfig.CopyProfileInto | pkg/config/sampler.go:62-65 | the profile sampler is copied without aliasing |
| Config.GlobalSamplingConfig.CopyThreadCrateInto | pkg/config/sampler.go:66-69 | the thread-creation sampler is copied without aliasing |
| Config.GlobalSamplingConfig.CopyTraceInto | pkg/config/sampler.go:70-73 | the trace sampler is copied without aliasing |
| MonitorController.NsSelectorToList | pkg/controllers/monitor/controller.go:89-101 | with `Any` set the full list is returned; otherwise exactly the namespaces named in MatchNames |
| MonitorController.NsSelectorToListAppend | pkg/controllers/monitor/controller.go:95-99 | the selection keeps input order |
| MonitorController.SelectServicePorts | pkg/controllers/monitor/controller.go:176-195 | a service port is selected exactly when its name is the target port, or the int target port is its number, or the string target port is its name |
| MonitorController.Hits | pkg/controllers/monitor/controller.go:206-221 | an endpoint port matches a service port by non-empty name or by that port's int or string target port |
| MonitorController.HitsFor | pkg/controllers/monitor/controller.go:205-222 | an endpoint port is hit exactly when it matches some selected service port |
| MonitorController.CandidatePorts | pkg/controllers/monitor/controller.go:202-223 | the candidate ports are exactly the matching endpoint ports |
| MonitorController.ActualPorts | pkg/controllers/monitor/controller.go:224 | the kept ports are candidate ports, each once, in the order of their first occurrence among the candidates |
| MonitorController.ActualPortsMember | pkg/controllers/monitor/controller.go:202-224 | a port is kept exactly when some endpoint port with that number matches a selected service port |
| MonitorController.AddressesFor | pkg/controllers/monitor/controller.go:228-233 | one `ip:port` address per kept port, named by the target reference |
| MonitorController.SubsetAddressesCount | pkg/controllers/monitor/controller.go:227-234 | one address per (address, port) pair |
| MonitorController.SubsetAddressesMember | pkg/controllers/monitor/controller.go:227-234 | the addresses are exactly those pairs |
| MonitorController.RawAddressesMember | pkg/controllers/monitor/controller.go:202-235 | an address is produced exactly when some subset has that IP and kept port |
| MonitorController.SchemeOf | pkg/controllers/monitor/controller.go:241-244 | the scheme is never empty |
| MonitorController.ScrapeDefaults | pkg/controllers/monitor/controller.go:241-250 | a blank scheme and path give `http://ip:port` |
| MonitorController.Finish | pkg/controllers/monitor/controller.go:238-253 | every address gets a scheme and path; none is dropped |
| MonitorController.EndpSubsetToAddresses | pkg/controllers/monitor/controller.go:169-259 | one final address per raw address |
| MonitorController.EndpSubsetToAddressesMembers | pkg/controllers/monitor/controller.go:169-259 | an address is produced exactly when it is the scrape URL of an address and kept port of some subset |
| MonitorController.EndpSubsetToAddressesFrom | pkg/controllers/monitor/controller.go:169-259 | every produced address comes from a subset address and a kept port |
| MonitorController.EndpSubsetToAddressesHas | pkg/controllers/monitor/controller.go:169-259 | every subset address and kept port produces its address |
| MonitorController.AddressesOf | pkg/controllers/monitor/controller.go:322-333 | the (address, name) pairs of the monitors |
| MonitorController.GatherTargets | pkg/controllers/monitor/controller.go:298-302 | a monitor's addresses, from every service and endpoints it selected, in order |
| MonitorController.ConfigFromAddresses | pkg/controllers/monitor/controller.go:305-337 | the monitors are a permutation of the addresses, sorted by friendly name, each sampling the CPU profile every 5 s with no labels; self-telemetry is on port 6060 |
| MonitorController.ConfigFromMonitors | pkg/controllers/monitor/controller.go:284-337 | the same over the addresses of every monitor |
| MonitorController.MonitorForRequests | pkg/controllers/monitor/controller.go:322-333 | a configured monitor with a valid endpoint issues one request, the 5-second CPU profile |
| MonitorController.ScrapeWithPath | pkg/controllers/monitor/controller.go:246-250 | with a non-blank path, the one request's URL holds `/debug/pprof` twice |
| MonitorController.ScrapeUrl | pkg/controllers/monitor/controller.go:241-250 | a non-blank path makes the address `scheme://ip:port/<path>/debug/pprof` |
| V1alpha1.ImageStr | pkg/operator/apis/v1alpha1/types.go:24-59 | fails exactly when Image is empty |
| V1alpha1.Defaulted | pkg/operator/apis/v1alpha1/types.go:31-52 | registry defaults to docker.io and tag to latest; the other fields are kept |
| V1alpha1.ParseImageRef | pkg/operator/apis/v1alpha1/types.go:24-59 | a parsed reference's registry, repo and image hold no '/' |
| V1alpha1.ImageStrRoundTrip | pkg/operator/apis/v1alpha1/types.go:24-59 | parsing `ImageStr(g)` gives g with registry and tag defaulted: the repo segment appears only when Repo is set, and `@sha` only when Sha is set |
| V1alpha1.ParseRefOf | pkg/operator/apis/v1alpha1/types.go:43-56 | a reference assembled from 2 or 3 segments, a tag and a sha parses back to them |
| Hack.Segments | pkg/collector/storage/hack/hack.go:13-15 | the split path has at least one segment |
| Hack.SplitPathToMd | pkg/collector/storage/hack/hack.go:12-22 | namespace, name, target and profile type are the first four segments |
| Hack.SplitPathRoundTrip | pkg/collector/storage/hack/hack.go:12-22 | a path of four or more segments, with or without one leading and one trailing '/', reads back as its first four segments |
| Hack.JoinBounds | pkg/collector/storage/hack/hack.go:15 | a '/'-join ends with its last segment |
| Hack.SegmentsOfDoubledSlash | pkg/collector/storage/hack/hack.go:13-15 | a doubled leading '/' leaves an empty first segment |
| Hack.TrimDoubledSlash | pkg/collector/storage/hack/hack.go:13-14 | only one leading '/' is trimmed |
| Hack.DoubledSlashGivesEmptyNamespace | pkg/collector/storage/hack/hack.go:12-22 | a doubled leading '/' gives an empty namespace and shifts the other fields |
| Common.NamespacedConfigName | pkg/controllers/common/common.go:14-16 | the name is the operator name followed by "-config" |
| Common.NamespacedCollectorName | pkg/controllers/common/common.go:18-20 | the name is the operator name followed by "-collector" |
| Common.NamesIgnoreNamespace | pkg/controllers/common/common.go:14-20 | both names depend only on the operator name |
| Common.NamesInjective | pkg/controllers/common/common.go:14-20 | each name determines the operator name |
| Common.ConfigNameIsNotCollectorName | pkg/controllers/common/common.go:14-20 | a config name is never a collector name |
| Text.SortBy | pkg/controllers/monitor/controller.go:305-313 | the array ends sorted by key and is a permutation of its old contents |
| Text.Insert | pkg/controllers/monitor/controller.go:305-313 | one insertion step keeps the prefix sorted and the contents permuted |
| Text.Greatest | pkg/collector/storage/storage.go:87-90 | the last file in sorted order is in the set and no file exceeds it |
| Text.SortedLastIsGreatestString | pkg/collector/storage/storage.go:87-90 | the last element of a sorted list is the greatest |
| Text.Split | pkg/collector/storage/hack/hack.go:15 | `strings.Split` gives at least one part, none holding the separator |
| Text.JoinSplit | pkg/collector/storage/hack/hack.go:15 | joining the parts of a split gives back the string |
| Text.SplitJoin | pkg/collector/storage/hack/hack.go:15 | splitting separator-free parts joined by the separator gives back the parts |
| Text.TrimPrefix | pkg/collector/storage/hack/hack.go:13 | removes the prefix when present, else nothing |
| Text.TrimSuffix | pkg/collector/storage/hack/hack.go:14 | removes the suffix when present, else nothing |
| Text.TrimSpace | pkg/controllers/monitor/controller.go:241-246 | the result has no leading or trailing space |
| Text.TrimSpaceIdempotent | pkg/controllers/monitor/controller.go:241-246 | trimming twice equals trimming once |
| Text.ReplaceChar | pkg/collector/ingest/ingest.go:193 | replaces every occurrence of one character and nothing else |
| Text.Uniq | pkg/collector/ingest/ingest.go:224 | the same elements, each once, in the order of their first occurrence; a non-empty input's first element leads |
| Text.FormatInt | pkg/collector/storage/storage.go:68 | a decimal rendering: digits with an optional leading '-' |
| Text.ParseInt | pkg/collector/storage/storage.go:94 | a parsed value is a 64-bit integer |
| Text.ParseFormatInt | pkg/collector/storage/storage.go:68-94 | every 64-bit integer's decimal rendering parses back to it |
| Text.LessEqTotal | pkg/collector/storage/storage.go:87 | Go's string order is total |
| Text.LessEqTransitive | pkg/collector/storage/storage.go:87 | Go's string order is transitive |
| Text.LessEqAntisymmetric | pkg/collector/storage/storage.go:87 | Go's string order is antisymmetric |

## Findings

| source | as written | input that shows it | evidently intended | confidence | as-written member | corrected member |
|---|---|---|---|---|---|---|
| pkg/collector/monitor/monitor.go:193-194 | `Shutdown` closes the stop channel whenever it is non-nil. A `Reload` whose pprof server shutdown fails keeps the monitors it just shut down (start.go:157-160), and the command's loop (cmd/collector/main.go:136-138) only logs the error, so the next reload or stop closes those channels again and panics | a collector with self-telemetry whose pprof server shutdown fails during a reload, followed by another reload or a stop | closing a channel only while it is open, so a repeated shutdown is harmless | medium, not executed | Collector.FailedReloadClosesSelfMonitor | Monitor.Monitor.GuardedShutdown |

## Left out

- Ingest.OtlpIngester.HandleEbpfCollectorProfile: the per-pid path (ingest.go lines 183-231) is modelled only as its key scheme (`Ingest.PidKeys`). Its `Convert`, `profile.Merge`, `Write` and `Put` calls panic on failure instead of counting it, and `profile.Merge` is a library call. Its `Put`s write under `pid-…` keys beside "all", so they never change what the "all" path finds; the model's final store does not hold their files.
- Ingest.OtlpIngester.HandleEbpfCollectorProfile: the clock's readings are numbered over the "all"-key `Put`s only. In the source each per-pid `Put` also reads the clock twice, between them.
- Ingest.Convert: the final `Write`/`Parse` round trip through the pprof library is taken as the identity on the serialised form. The converted profile therefore refers to mappings, locations and functions by ID. Convert's panic on a function with no name, file name or system name is a precondition (`WellFormed`), as are the in-range table lookups.
- Ingest.Pow10AtLeast: `math.Pow(10, math.Ceil(math.Log10(n)))` is modelled as the exact smallest power of ten; floating-point rounding is not modelled.
- `CheckValid` and `Write` of the pprof library are parameters of the handler. The clock is a parameter too: a function from the number of readings taken so far to the reading. Each "all"-key `Put` reads it twice, first for the start and then for the end, as the source's two `time.Now()` calls do.
- Ingest, Storage, Collector: the label keys "namespace" and "name" stand for `labels.NamespaceLabel` and `labels.NameLabel`. pkg/collector/labels is not part of this model.
- The OTLP HTTP and gRPC servers, the gin routing, gzip body reading and the proto/JSON rendering are transport and codecs and are not modelled.
- Storage: `path.Join` is modelled as joining with '/' while dropping empty parts; `path.Clean`'s handling of "..", "." and repeated slashes is not modelled.
- Storage: the disk is any map of files and set of directories. Nothing requires a file's parent to be a directory, or a path not to be both. `Get` and `ListKeys` treat a path that is both as a directory.
- Storage: filesystem errors other than a missing directory (permissions, a failing read or write, `MkdirAll` failing) are not modelled. `Merger` is an arbitrary function that may fail.
- Storage.LabelBasedFileStore.ListKeys: Go map iteration order is unspecified, so the contract states the set of keys returned and that none repeats, not their order.
- Storage.StorageTestScenario: the second half of `storage_test.go` (lines 47-68) is not modelled as asserted. It calls a two-argument constructor that no longer exists and expects two files where `Put` leaves one (`Storage.PutTwiceSameEnd`).
- Monitor: URL validity (`http.NewRequest`) is modelled as the absence of ASCII control characters. The rest of `url.Parse` is not modelled.
- Monitor.Plan, Monitor.Monitor.Start: a mutex sampler without a goroutine sampler is a nil dereference in the source; the model rules it out with the precondition `MutexOk`.
- Monitor.Monitor.Start: the precondition that the monitor is not running (its stop channel nil or closed) rules out a second Start on a running monitor. In the source that starts new collection loops beside the old ones, which keep running under the new stop channel and cancel function.
- Monitor.Monitor.Start: the goroutine it launches per request is recorded in `workers`, not run. One iteration of that goroutine's loop is `Monitor.Monitor.CollectOnce`.
- Monitor.Monitor.CollectOnce: the goroutines, `client.Do`, the 5-second retry sleep and the logger are not modelled; one loop iteration takes the fetch outcome as a parameter. The store is the label-based file store, not the `Store` interface.
- Monitor.Monitor.Shutdown: the precondition that the stop channel is not closed rules out a second Shutdown, which panics in the source on the double `close`. The collector uses `Monitor.Monitor.GuardedShutdown` instead (see "## Findings").
- Collector.Collector.Shutdown: it shuts each monitor down with the corrected `GuardedShutdown`. After a failed shutdown the source's `Shutdown` panics on the already closed channels instead (see "## Findings").
- Collector.Collector.Reload: it shuts down through the corrected `Shutdown`, so a Reload after a failed Reload succeeds here, while it panics in the source (see "## Findings").
- Collector.Collector.Start: a self-telemetry configuration with a pprof server already present panics in the source ("pprof server should be nil here"). The model rules that out with a precondition that every caller meets.
- Collector: the errgroup fan-out, the internal HTTP server's `ListenAndServe`, and the 50-try readiness poll are not modelled. The server's shutdown outcome is a parameter.
- Collector.Collector.Start: the source sets a field named `ThreadCreate`, while the sampler struct in pkg/config/sampler.go declares `ThreadCrate`. The model treats them as the same field.
- Hack.SplitPathToMd: a path with fewer than four segments makes the source index past the end of the split and panic. The model rules that out with a precondition.
- Ingest.SplitByPid, Ingest.PidKeys, Ingest.CollectThreadNames, Ingest.CollectSampleNames, Ingest.CollectAttrNames: an attribute index outside the attribute table makes the source panic. The model rules that out with the precondition `AllAttributesInRange` (or its per-sample form).
- MonitorController: `endpSelectorToList` and the namespace and monitor cache lookups are not modelled; their results are parameters (`MonitorTargets`). The early return on a cache error, the `Objects`/`ApplyObjects` step, the panic on an address without a target reference, and `MatchExpressions` are left out.
- MonitorController: ports are `int32` in the source and unbounded integers here.
- MonitorController.ConfigFromAddresses: `slices.SortFunc` is not stable; the model sorts by insertion, which is one of its possible outcomes. The contract states sortedness and permutation, which hold for any of them.
- The operator's Kubernetes plumbing, the web UI, the chaos load generators and the superseded `pkg/monitor` package are outside this model.
