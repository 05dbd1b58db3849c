# Elastic OpenTelemetry .NET: bootstrap protocols, verified models

A Dafny model of the bootstrap path of the Elastic Distribution of OpenTelemetry .NET: the concurrent
hand-offs built from compare-and-swap, locks, timers and bounded joins, the hand-written parsers, and the
precedence rules of the configuration. `dafny verify dfyconfig.toml` checks the whole project.

Each concurrent protocol is a step system: a `State`, an `Action` per atomic step of any number of threads,
`Enabled` and `Next`, and `Exec` for a whole run. A theorem is about every feasible run, of any length, with any
number of threads. Fields marked as history record what happened and influence no step. Beside the step systems stand
classes with the source's fields and methods; such a method is one call that nothing else interrupts. Parsers and
cells are executable code proved against specification functions, and the functions against independent readings.

| module | what it models |
|---|---|
| `LogHandOff`, `LogHandOffInvariants`, `LogDelivery` | `CompositeLogger`: one instance from deferred to active |
| `LoggerSingleton` | `CompositeLogger`: the static pre-activation singleton |
| `ClientOwnership` | `CentralConfiguration.StartClient` and the disposals: who owns the OpAMP client |
| `BootstrapTiming` | the bounded waits from `StartClient` to activation |
| `InitialConfig` | the first remote configuration and the level at activation |
| `FileLogger` | queue, semaphore, background writer, disposal |
| `SubscriberList` | `RemoteConfigMessageListener`: copy-on-write subscription and dispatch |
| `EventListener` | `LoggingEventListener`: sources announced before the constructor ends |
| `SignalBuilder` | `WithElasticDefaults`: double-checked configuration |
| `JsonScanner`, `JsonRoundTrip` | `CentralConfigJsonParser` and its agreement with RFC 8259 |
| `ResourceAttributes` | `LookupResourceAttribute` |
| `ConfigCells`, `CompositeOptions`, `EnvironmentParsing` | cells, options, environment and configuration parsers |

Where code and comments disagree the model follows the code:

- The comments in `FileLogger` promise a flush of what is queued at disposal. The flag is set before cancellation,
  so the flush loop never writes (`FileLogger.DisposalStopsWriting`). What was enqueued is all written, whatever the
  schedule, exactly if nothing was queued or in the writer's hand when the flag was set (`FileLogger.FlushPromise`;
  `FileLogger.QueuedLineIsLost` is a run that loses a line).
- The threading contract in `CentralConfiguration` leaves every client with an owner. A client is orphaned when the
  worker reads `_client` before the caller's swap and Join still times out (`ClientOwnership.OwnershipTrichotomy` gives
  the exact condition).
- `CentralConfigJsonParser` lists unicode escapes in keys as a limitation. The scan is the JSON reading exactly if the
  first key that is taken for `log_level` or spells it, if there is one, is the plain `log_level`
  (`JsonRoundTrip.ScanIsReading`). Two ways to fail are shown at concrete objects: a key that spells `log_level` with an
  escape is missed (`JsonRoundTrip.EscapedLetterIsMissed`), which the comments say, and a key that ends in an escaped
  quote followed by `log_level` is misread (`JsonRoundTrip.EscapedQuoteIsMisread`), which they do not.
- `ParseInstrumentationVariables` tests the traces switch twice and the metrics switch never
  (`EnvironmentParsing.MetricsSwitchAloneIsLost`).

## Model

| member | source | states |
|---|---|---|
| `LogDelivery.EveryEventIsInOnePlace` | src/Elastic.OpenTelemetry.Core/Diagnostics/CompositeLogger.cs:136-446 | In every interleaving of any number of Log, Activate, timer, Dispose, StoreOptions and SetAdditionalLogger steps, on an instance constructed deferred or active, a begun event is in exactly one place, once: in flight, queued, captured, routed, discarded by the timer, dropped by disposal, or dropped while no sub-logger existed; none of the three sub-loggers gets it twice |
| `LogDelivery.NullQueueMeansSubLoggers` | src/Elastic.OpenTelemetry.Core/Diagnostics/CompositeLogger.cs:313-329 | Whenever the queue is null and no discard has happened, the file and console sub-loggers are assigned, although Log reads them without the lock |
| `LogDelivery.DeliveredAtRest` | src/Elastic.OpenTelemetry.Core/Diagnostics/CompositeLogger.cs:396-430 | When activation and all Log calls have finished, with no disposal and no discard, file and console have every event exactly once, the deferred ones in enqueue order, and so has the additional logger unless a routed event found none; the reported count is the number enqueued |
| `LogDelivery.DeliveredToAdditional` | src/Elastic.OpenTelemetry.Core/Diagnostics/CompositeLogger.cs:322-430 | An instance built active with an additional logger, or one whose activation finds one in the options, has handed it every event exactly once, the deferred ones in enqueue order, in every run that comes to rest without disposal or discard |
| `LogDelivery.DeferredOrderAlwaysKept` | src/Elastic.OpenTelemetry.Core/Diagnostics/CompositeLogger.cs:338-351 | In all runs, disposed and discarding ones too, what a sub-logger has of the deferred entries is a subsequence of the enqueue order, and the reported count is the enqueued minus the discarded ones |
| `LogDelivery.RetainedOptionsNeverDiscard` | src/Elastic.OpenTelemetry.Core/Diagnostics/CompositeLogger.cs:86-153 | In every run of an instance constructed with options, deferred or active, no entry is discarded or dropped for want of a sub-logger, although Activate nulls the options while a timer callback may be reading them |
| `LogDelivery.RetainedOptionsDeliver` | src/Elastic.OpenTelemetry.Core/Diagnostics/CompositeLogger.cs:136-153 | After any run of a deferred instance constructed with options, neither activated nor disposed, its timer alone activates it and delivers all that is queued, in order, to file, console and the additional logger of the options |
| `LogDelivery.NeverDiscardsExactlyIf` | src/Elastic.OpenTelemetry.Core/Diagnostics/CompositeLogger.cs:86-170 | No run of an instance discards or drops an entry, if and only if it was constructed with options |
| `LogDelivery.StoredOptionsNeverDiscard` | src/Elastic.OpenTelemetry.Core/Diagnostics/CompositeLogger.cs:206-209 | Options stored by GetOrCreate before any timer callback has found none protect the queue in every continuation |
| `LogDelivery.DiscardOnlyAfterReadingNoOptions` | src/Elastic.OpenTelemetry.Core/Diagnostics/CompositeLogger.cs:148-170 | If anything was discarded or dropped for want of a sub-logger, the run contains a timer step that read null options before any had been offered |
| `LogDelivery.OvertakingExactlyIf` | src/Elastic.OpenTelemetry.Core/Diagnostics/CompositeLogger.cs:338-430 | Order across the hand-off, for each of the three sub-loggers: from any reachable state of a live instance, a Log call that has not begun can, in some continuation, reach the sub-logger before an already deferred entry, if and only if an entry is still waiting for it |
| `LogDelivery.OvertakingHappens` | src/Elastic.OpenTelemetry.Core/Diagnostics/CompositeLogger.cs:396-430 | A run in which one entry is deferred, its Log call has returned, and a later call can still come first |
| `LogDelivery.DiscardHappens` | src/Elastic.OpenTelemetry.Core/Diagnostics/CompositeLogger.cs:155-170 | A run in which the timer of an instance without options discards a deferred entry |
| `LogDelivery.LogAfterDisposal` | src/Elastic.OpenTelemetry.Core/Diagnostics/CompositeLogger.cs:366-399 | In every run an event whose Log call begins after disposal reaches no queue and no sub-logger, whatever is activated later |
| `LogDelivery.TimerAfterDisposal` | src/Elastic.OpenTelemetry.Core/Diagnostics/CompositeLogger.cs:138-143 | A timer callback that begins after disposal never gets beyond its first test |
| `LogDelivery.ExtraIsGone` | src/Elastic.OpenTelemetry.Core/Diagnostics/CompositeLogger.cs:366-394 | Once disposal has taken the additional logger from an activated instance, it receives nothing more unless another is set |
| `LogHandOffInvariants.InvRun` | src/Elastic.OpenTelemetry.Core/Diagnostics/CompositeLogger.cs:292-360 | All invariants of the hand-off (lock, conservation, order, counting, timer safety) survive every run from any state that has them |
| `LogHandOff.CompositeLogger.constructor` | src/Elastic.OpenTelemetry.Core/Diagnostics/CompositeLogger.cs:86-129 | Active at once, with all its sub-loggers, exactly if there are options and they name no OpAMP endpoint; otherwise deferred with an empty queue; the options are kept either way, as the step system has it |
| `LogHandOff.CompositeLogger.Log` | src/Elastic.OpenTelemetry.Core/Diagnostics/CompositeLogger.cs:396-430 | Nothing after disposal; while there is a queue the event is appended to it; otherwise each of file, console and additional logger that exists gets it, once; and that is what the steps of a Log body do |
| `LogHandOff.CompositeLogger.CaptureQueue` | src/Elastic.OpenTelemetry.Core/Diagnostics/CompositeLogger.cs:318-329 | The locked part of Activate: sub-loggers assigned, options forgotten, the queue taken away |
| `LogHandOff.CompositeLogger.Drain` | src/Elastic.OpenTelemetry.Core/Diagnostics/CompositeLogger.cs:338-349 | The drain loop does what the drain steps do and counts what it handed to Log |
| `LogHandOff.CompositeLogger.Activate` | src/Elastic.OpenTelemetry.Core/Diagnostics/CompositeLogger.cs:292-351 | The first call creates the sub-loggers, forgets the options, takes the queue and hands its entries, in order and unless disposed, to file, console and the additional logger of the options, reporting their number, as the activation steps do; every other call changes nothing |
| `LogHandOff.CompositeLogger.OnSafetyTimerElapsed` | src/Elastic.OpenTelemetry.Core/Diagnostics/CompositeLogger.cs:136-170 | Nothing after disposal; with options it activates and delivers what was queued to file, console and additional logger; without, the queue goes and no sub-logger gets anything; and that is what the steps of the callback do |
| `LogHandOff.CompositeLogger.Dispose` | src/Elastic.OpenTelemetry.Core/Diagnostics/CompositeLogger.cs:366-369 | Marks the instance disposed and drops the additional logger; nothing else of the hand-off changes |
| `LogHandOff.ActivateAloneDelivers` | src/Elastic.OpenTelemetry.Core/Diagnostics/CompositeLogger.cs:313-349 | An undisturbed Activate of a live instance appends all deferred entries, in order, to file and console, and to the additional logger if the options have one, and reports their number |
| `LogHandOff.RoutesAlone` | src/Elastic.OpenTelemetry.Core/Diagnostics/CompositeLogger.cs:396-430 | An undisturbed Log in active mode hands the event to each sub-logger that exists and to no other |
| `LoggerSingleton.NeverReusesClaimed` | src/Elastic.OpenTelemetry.Core/Diagnostics/CompositeLogger.cs:195-272 | In every run, a GetOrCreate call that reuses the singleton returns an instance whose activation had not been claimed when the call began |
| `LoggerSingleton.ReuseNeedsAgreement` | src/Elastic.OpenTelemetry.Core/Diagnostics/CompositeLogger.cs:253-272 | In every run in which no two different options are Equal, a GetOrCreate call that reuses an instance brought no options, or read none there, or read its own |
| `LoggerSingleton.MismatchIsIsolated` | src/Elastic.OpenTelemetry.Core/Diagnostics/CompositeLogger.cs:216-237 | In every run, a call that reads options differing from its own and not Equal returns, if it returns, an instance that did not exist before, and nothing ever publishes it |
| `LoggerSingleton.SingletonStays` | src/Elastic.OpenTelemetry.Core/Diagnostics/CompositeLogger.cs:195-285 | Whatever GetOrCreate calls bring and whichever other instances are activated or time out, a published singleton stays published: only its own activation, its own timer or ClearPreActivationInstance withdraws it |
| `LoggerSingleton.ActivatedIsNeverPublishedAgain` | src/Elastic.OpenTelemetry.Core/Diagnostics/CompositeLogger.cs:302-336 | Once any Activate call on an instance has returned, it is not the published singleton, then or in any continuation of the run |
| `LoggerSingleton.WithdrawnForGood` | src/Elastic.OpenTelemetry.Core/Diagnostics/CompositeLogger.cs:172-336 | An instance withdrawn by Activate, its timer or ClearPreActivationInstance is never published again, in any continuation |
| `LoggerSingleton.SubLoggersMadeAtMostOnce` | src/Elastic.OpenTelemetry.Core/Diagnostics/CompositeLogger.cs:99-107 | In every run each instance creates its file and console sub-loggers at most once, whether in its constructor or in Activate |
| `LoggerSingleton.ActivatedHasSubLoggers` | src/Elastic.OpenTelemetry.Core/Diagnostics/CompositeLogger.cs:302-336 | Once Activate has returned on an instance and no call is still making its sub-loggers, they have been made exactly once |
| `LoggerSingleton.OneInstanceIsShared` | src/Elastic.OpenTelemetry.Core/Diagnostics/CompositeLogger.cs:200-243 | Under every schedule of GetOrCreate calls alone, with options that agree and instances that defer, all calls that have returned have returned one instance, the published one, and it has options if any of them brought some |
| `LoggerSingleton.PreActivation.GetOrCreate` | src/Elastic.OpenTelemetry.Core/Diagnostics/CompositeLogger.cs:195-245 | Undisturbed: a singleton whose options are some, differ from the given ones and are not Equal, or that is claimed, stays in place beside a new isolated instance; any other singleton is shared and given the options if it has none; without one the new instance is published |
| `LoggerSingleton.PreActivation.Activate` | src/Elastic.OpenTelemetry.Core/Diagnostics/CompositeLogger.cs:302-336 | Undisturbed: only the first call makes sub-loggers and forgets the options; every call withdraws the instance from the static field |
| `LoggerSingleton.PreActivation.ClearPreActivationInstance` | src/Elastic.OpenTelemetry.Core/Diagnostics/CompositeLogger.cs:279-285 | The static field is cleared and no instance changes |
| `ClientOwnership.ClientStoppedAtMostOnce` | src/Elastic.OpenTelemetry.Core/Configuration/CentralConfiguration.cs:160-356 | In every run of worker, caller and any disposals, StopAsync and Dispose each reach the client at most once and never during StartAsync; the logger is disposed at most once |
| `ClientOwnership.OwnershipTrichotomy` | src/Elastic.OpenTelemetry.Core/Configuration/CentralConfiguration.cs:208-290 | At quiescence before disposal the client is retained, cleaned up or orphaned, each case exactly under its condition; orphaned exactly if StartAsync succeeded, the worker read _client before the swap, and Join timed out |
| `ClientOwnership.LateReadCleansUp` | src/Elastic.OpenTelemetry.Core/Configuration/CentralConfiguration.cs:226-256 | A worker that reads _client after the swap has called StopAsync and Dispose once each when it exits, in every continuation |
| `ClientOwnership.DisposalIsExactlyOnce` | src/Elastic.OpenTelemetry.Core/Configuration/CentralConfiguration.cs:313-356 | When every disposal has finished and there was one: a retained client has received StopAsync and Dispose exactly once each; any other only what the worker's cleanup sent; and if the components were disposed, so was the logger, once |
| `ClientOwnership.DisposalAlone` | src/Elastic.OpenTelemetry.Core/Configuration/CentralConfiguration.cs:313-356 | From any state after construction an undisturbed disposal, direct or through the components, stops and disposes a retained client exactly if no disposal has passed its gates before, and else sends it nothing |
| `ClientOwnership.OrphanedClientIsReachable` | src/Elastic.OpenTelemetry.Core/Configuration/CentralConfiguration.cs:226-244 | A concrete run reaches the orphaned case, so the two-sided ownership the comments describe does not always hold |
| `ClientOwnership.CentralConfiguration.Dispose` | src/Elastic.OpenTelemetry.Core/Configuration/CentralConfiguration.cs:313-329 | Undisturbed: StopAsync and Dispose each reach the client once more if it is the real one and was not disposed, and not at all otherwise; an empty client does not use up the gate; and this is what the steps of a disposal do |
| `ClientOwnership.ElasticOpenTelemetryComponents.Dispose` | src/Elastic.OpenTelemetry.Core/ElasticOpenTelemetryComponents.cs:55-66 | The first call leaves the shared list, disposes logger and listener once, and the client once if it is real and was not disposed; later calls change nothing |
| `FileLogger.NoLostWakeup` | src/Elastic.OpenTelemetry.Core/Diagnostics/FileLogger.cs:91-177 | In every run, while the writer waits the queue is no longer than the permits plus the producers between Enqueue and Release; with neither, every enqueued line has been written in order |
| `FileLogger.PermitsBalance` | src/Elastic.OpenTelemetry.Core/Diagnostics/FileLogger.cs:164-212 | In every run each enqueued line accounts for exactly one permit, available, acquired or about to be released, disposal for one more, and only one Dispose call passes the gate |
| `FileLogger.WrittenIsPrefix` | src/Elastic.OpenTelemetry.Core/Diagnostics/FileLogger.cs:104-139 | In all runs, disposal included, the lines written are a prefix of the enqueue order, at most one line is lost, and the rest is in the writer's hand or queued |
| `FileLogger.DisposalStopsWriting` | src/Elastic.OpenTelemetry.Core/Diagnostics/FileLogger.cs:187-212 | After the disposed flag is set at most one more line is written, and the flush loop writes none, although its comment says it flushes |
| `FileLogger.WriterStops` | src/Elastic.OpenTelemetry.Core/Diagnostics/FileLogger.cs:97-139 | After cancellation the writer, left alone, stops |
| `FileLogger.FlushedExactlyIf` | src/Elastic.OpenTelemetry.Core/Diagnostics/FileLogger.cs:103-139 | In every run to the setting of the flag and every continuation, the lines enqueued before are all written exactly if none was queued or awaiting the writer's check, and the write under way, if any, succeeded |
| `FileLogger.FlushPromise` | src/Elastic.OpenTelemetry.Core/Diagnostics/FileLogger.cs:187-212 | Every continuation in which the writer stops has written all those lines, if and only if none was queued or in the writer's hand when the flag was set |
| `FileLogger.QueuedLineIsLost` | src/Elastic.OpenTelemetry.Core/Diagnostics/FileLogger.cs:103-108 | A run in which a line queued before disposal is taken off the queue after the flag is set and never written |
| `FileLogger.FileLogger.Log` | src/Elastic.OpenTelemetry.Core/Diagnostics/FileLogger.cs:175-176 | One line is queued and one permit released |
| `FileLogger.FileLogger.WriteQueued` | src/Elastic.OpenTelemetry.Core/Diagnostics/FileLogger.cs:104-119 | The inner loop writes the whole queue in order, unless disposal has begun or the stream is closed, when it loses the first line, writes nothing and stops |
| `FileLogger.FileLogger.Dispose` | src/Elastic.OpenTelemetry.Core/Diagnostics/FileLogger.cs:187-212 | First call: flag, cancellation, one permit, stream closed; later calls nothing; queue and file are untouched |
| `SubscriberList.SubscribersListedOnce` | src/Elastic.OpenTelemetry.OpAmp/OpAmp/RemoteConfigMessageListener.cs:56-74 | Under any schedule of any set of subscribers the array lists those whose exchange succeeded, each once, in exchange order; at most N(N-1)/2 exchanges fail |
| `SubscriberList.SubscribeIsNotAbandoned` | src/Elastic.OpenTelemetry.OpAmp/OpAmp/RemoteConfigMessageListener.cs:56-74 | In every continuation a Subscribe call that has begun is still running or its subscriber is listed |
| `SubscriberList.SnapshotsArePrefixes` | src/Elastic.OpenTelemetry.OpAmp/OpAmp/RemoteConfigMessageListener.cs:48-53 | Every snapshot HandleMessage dispatches over is a prefix of the list of subscribers then and later |
| `SubscriberList.SnapshotIsCurrent` | src/Elastic.OpenTelemetry.OpAmp/OpAmp/RemoteConfigMessageListener.cs:45-53 | In every run a snapshot holds exactly the subscribers whose exchange had succeeded when it was taken, whatever is subscribed while it is dispatched over |
| `SubscriberList.SubscribeAlone` | src/Elastic.OpenTelemetry.OpAmp/OpAmp/RemoteConfigMessageListener.cs:56-74 | From any state a Subscribe call by itself succeeds at its first exchange and adds its subscriber at the end |
| `SubscriberList.LossesTotal` | src/Elastic.OpenTelemetry.OpAmp/OpAmp/RemoteConfigMessageListener.cs:60-73 | Closed form of the bound on failed exchanges after k of n successes |
| `SubscriberList.RemoteConfigMessageListener.Extended` | src/Elastic.OpenTelemetry.OpAmp/OpAmp/RemoteConfigMessageListener.cs:64-66 | The copy is a new array with the subscriber appended; the array copied from is not written |
| `SubscriberList.RemoteConfigMessageListener.CompareExchange` | src/Elastic.OpenTelemetry.OpAmp/OpAmp/RemoteConfigMessageListener.cs:68 | Exchange by reference |
| `SubscriberList.RemoteConfigMessageListener.Subscribe` | src/Elastic.OpenTelemetry.OpAmp/OpAmp/RemoteConfigMessageListener.cs:56-74 | One undisturbed pass appends the subscriber in a new array, and the old array keeps its contents |
| `SubscriberList.RemoteConfigMessageListener.HandleMessage` | src/Elastic.OpenTelemetry.OpAmp/OpAmp/RemoteConfigMessageListener.cs:17-54 | Each subscriber of the snapshot is notified once, in order, exactly if the elastic entry is JSON with a log level |
| `EventListener.EnabledAtOptionsLevel` | src/Elastic.OpenTelemetry.Core/Diagnostics/LoggingEventListener.cs:34-75 | In every interleaving of callbacks with the constructor no source is enabled twice, and every enabling uses the options' level, not the field's initial one |
| `EventListener.MatchingSourcesEnabledOnce` | src/Elastic.OpenTelemetry.Core/Diagnostics/LoggingEventListener.cs:100-127 | Once the constructor and the callbacks have returned, exactly the matching sources are enabled and recorded, each once |
| `EventListener.CallbackFinishes` | src/Elastic.OpenTelemetry.Core/Diagnostics/LoggingEventListener.cs:100-127 | An undisturbed callback of a matching source appends it to the list while there is one, and otherwise enables it at the level of the moment |
| `EventListener.ConstructorFinishes` | src/Elastic.OpenTelemetry.Core/Diagnostics/LoggingEventListener.cs:48-74 | The constructor by itself enables all it took from the list, in order |
| `EventListener.LoggingEventListener.Construct` | src/Elastic.OpenTelemetry.Core/Diagnostics/LoggingEventListener.cs:48-74 | Every source announced so far is recorded and enabled in order at the options' level |
| `EventListener.LoggingEventListener.OnEventSourceCreated` | src/Elastic.OpenTelemetry.Core/Diagnostics/LoggingEventListener.cs:100-127 | A matching source is deferred before the hand-off and enabled after it; any other changes nothing |
| `SignalBuilder.ConfiguredAtMostOnce` | src/Elastic.OpenTelemetry.Core/SignalBuilder.cs:126-161 | In every interleaving of calls on any builders the configure callback runs at most once for a builder |
| `SignalBuilder.CounterCountsCalls` | src/Elastic.OpenTelemetry.Core/SignalBuilder.cs:90-187 | When all calls have returned, a builder has a stored counter exactly if some call on it was not turned away; it was then configured once and the counter is the number of those calls |
| `SignalBuilder.GateDecides` | src/Elastic.OpenTelemetry.Core/SignalBuilder.cs:99-123 | In every continuation a call at the signal gate is turned away exactly if the gate says so, and then the gate step has changed nothing |
| `SignalBuilder.KnownBuilderIsCounted` | src/Elastic.OpenTelemetry.Core/SignalBuilder.cs:90-93 | A call that finds its builder in the table is never turned away |
| `SignalBuilder.BuilderState.IncrementWithElasticDefaults` | src/Elastic.OpenTelemetry.Core/BuilderState.cs:20-21 | The counter grows by one |
| `SignalBuilder.BuilderStateTable.WithElasticDefaults` | src/Elastic.OpenTelemetry.Core/SignalBuilder.cs:79-187 | Undisturbed: a known builder is counted, an unknown one configured and stored with counter 1 if the gate lets it pass; other builders' states stay; no builder is ever configured twice |
| `JsonScanner.ScanMeaning` | src/Elastic.OpenTelemetry.OpAmp/OpAmp/CentralConfigJsonParser.cs:54-118 | On arbitrary bytes: the result is v exactly when the text can be cut at a greedy sequence of matches of which the last is the first followed by whitespace and a colon, and after that colon come whitespace and the string v up to its first unescaped quote |
| `JsonScanner.StringAheadMeaning` | src/Elastic.OpenTelemetry.OpAmp/OpAmp/CentralConfigJsonParser.cs:76-110 | A value is found exactly when whitespace, an opening quote, the value's characters and an unescaped quote come next |
| `JsonScanner.IndexOfMeaning` | src/Elastic.OpenTelemetry.OpAmp/OpAmp/CentralConfigJsonParser.cs:57 | The first position at which the name occurs |
| `JsonScanner.LeadingMeaning` | src/Elastic.OpenTelemetry.OpAmp/OpAmp/CentralConfigJsonParser.cs:121-132 | The number of leading bytes among space, tab, carriage return and line feed, the insignificant whitespace of section 2 of RFC 8259 |
| `JsonScanner.CentralConfigJsonParser.TryParseLogLevel` | src/Elastic.OpenTelemetry.OpAmp/OpAmp/CentralConfigJsonParser.cs:42-43 | The scan for the quoted name log_level |
| `JsonScanner.CentralConfigJsonParser.TryParseStringValue` | src/Elastic.OpenTelemetry.OpAmp/OpAmp/CentralConfigJsonParser.cs:49-119 | The loop terminates without reading out of range and returns what the scan finds |
| `JsonScanner.CentralConfigJsonParser.ClosingQuote` | src/Elastic.OpenTelemetry.OpAmp/OpAmp/CentralConfigJsonParser.cs:89-108 | The first unescaped quote, or none on a truncated string or escape |
| `JsonScanner.CentralConfigJsonParser.SkipWhitespace` | src/Elastic.OpenTelemetry.OpAmp/OpAmp/CentralConfigJsonParser.cs:121-132 | Every byte before the position it returns is one of space, tab, carriage return and line feed, and the byte there, if any, is none of them |
| `JsonRoundTrip.ScanOfObject` | src/Elastic.OpenTelemetry.OpAmp/OpAmp/CentralConfigJsonParser.cs:49-119 | For every flat object with any RFC 8259 section 2 whitespace and with escapes allowed, scanning its bytes gives the raw value of the first member whose key is, or ends in an escaped quote and, log_level, and nothing exactly if there is none or its value is no string |
| `JsonRoundTrip.PrettyPrinted` | src/Elastic.OpenTelemetry.OpAmp/OpAmp/CentralConfigJsonParser.cs:121-132 | A document given byte by byte, with a line feed before the value, scans to the value |
| `JsonRoundTrip.ScanIsReading` | src/Elastic.OpenTelemetry.OpAmp/OpAmp/CentralConfigJsonParser.cs:20-31 | The scan is the JSON reading, with keys decoded as RFC 8259 section 7 asks and values raw, for all values under the object's keys, if and only if the first key that is taken for log_level or spells it, if any, is the plain log_level |
| `JsonRoundTrip.UnsafeKeysAreMisread` | src/Elastic.OpenTelemetry.OpAmp/OpAmp/CentralConfigJsonParser.cs:20-31 | Under any other keys there are string values for which the scan is not the reading |
| `JsonRoundTrip.TakenAndSpelled` | src/Elastic.OpenTelemetry.OpAmp/OpAmp/CentralConfigJsonParser.cs:24-31 | Only the plain key is both taken for a name by the scanner and spells it |
| `JsonRoundTrip.SpellsMeaning` | src/Elastic.OpenTelemetry.OpAmp/OpAmp/CentralConfigJsonParser.cs:27-28 | A key spells a name exactly if decoding its escapes gives the name |
| `JsonRoundTrip.RawIsDecoded` | src/Elastic.OpenTelemetry.OpAmp/OpAmp/CentralConfigJsonParser.cs:20-22 | The raw bytes returned for a value are its decoded string if and only if it has no escapes |
| `JsonRoundTrip.EscapedQuoteIsMisread` | src/Elastic.OpenTelemetry.OpAmp/OpAmp/CentralConfigJsonParser.cs:54-71 | The object whose only key is an escaped quote and log_level: the scan returns its value, the reading nothing |
| `JsonRoundTrip.EscapedLetterIsMissed` | src/Elastic.OpenTelemetry.OpAmp/OpAmp/CentralConfigJsonParser.cs:27-28 | The object whose only key spells log_level with an escaped l: the scan returns nothing, the reading its value |
| `JsonRoundTrip.PlainKeysAreSafe` | src/Elastic.OpenTelemetry.OpAmp/OpAmp/CentralConfigJsonParser.cs:20-31 | Objects with escape-free keys meet that condition |
| `ResourceAttributes.LookupResourceAttribute` | src/Elastic.OpenTelemetry.Core/Configuration/CompositeElasticOpenTelemetryOptions.cs:419-436 | The loop returns what the lookup function gives |
| `ResourceAttributes.SplitOfPrint` | src/Elastic.OpenTelemetry.Core/Configuration/CompositeElasticOpenTelemetryOptions.cs:421 | Splitting at commas undoes printing |
| `ResourceAttributes.LookupOfPrint` | src/Elastic.OpenTelemetry.Core/Configuration/CompositeElasticOpenTelemetryOptions.cs:419-436 | For every printed list of padded pairs and other text the lookup gives the first value under exactly that key, '=' included, or nothing |
| `ResourceAttributes.EveryInputIsPrinted` | src/Elastic.OpenTelemetry.Core/Configuration/CompositeElasticOpenTelemetryOptions.cs:419-436 | Every input is such a printed list, so LookupOfPrint describes the lookup on all inputs |
| `ConfigCells.ConfigCell.Assign` | src/Elastic.OpenTelemetry.Core/Configuration/ConfigCell.cs:55-65 | A lower-ranked source changes nothing; otherwise value and source are replaced |
| `ConfigCells.ConfigCell.Snapshot` | src/Elastic.OpenTelemetry.Core/Configuration/ConfigCell.cs:70-74 | Value and source together |
| `ConfigCells.SnapshotIsPrecedence` | src/Elastic.OpenTelemetry.Core/Configuration/ConfigCell.cs:34-74 | After any sequence of assignments the cell holds the last word of the highest source that has spoken, else its default |
| `ConfigCells.SnapshotIsLastOfHighest` | src/Elastic.OpenTelemetry.Core/Configuration/ConfigCell.cs:55-65 | That value is an assignment of the highest rank present after which none of that rank comes |
| `ConfigCells.InterleavingIsIrrelevant` | src/Elastic.OpenTelemetry.Core/Configuration/ConfigCell.cs:49-65 | Two assignment sequences that agree source by source leave the same cell |
| `CompositeOptions.EffectiveLevelIsFirstDefined` | src/Elastic.OpenTelemetry.Core/Configuration/Parsers/ConfigurationParser.cs:57-66 | For all environments, configurations and user options the folded level is the first defined of options, environment, Elastic section, Logging section and Warning, even where the fallback stores a null |
| `CompositeOptions.CompositeElasticOpenTelemetryOptions.constructor` | src/Elastic.OpenTelemetry.Core/Configuration/CompositeElasticOpenTelemetryOptions.cs:111-196 | The constructed object's effective level is the first defined one; so are its endpoint (options, environment, configuration), resource attributes and service name (environment, configuration) |
| `CompositeOptions.CompositeElasticOpenTelemetryOptions.AssignFromSources` | src/Elastic.OpenTelemetry.Core/Configuration/CompositeElasticOpenTelemetryOptions.cs:168-182 | Each of the four cells is the fold of its sources in the order environment, configuration, options |
| `CompositeOptions.CompositeElasticOpenTelemetryOptions.AssignFromEnvironment` | src/Elastic.OpenTelemetry.Core/Configuration/CompositeElasticOpenTelemetryOptions.cs:129-138 | The level, endpoint, resource-attributes and service-name cells are offered what their variables parse to, as source Environment |
| `CompositeOptions.CompositeElasticOpenTelemetryOptions.AssignFromIConfiguration` | src/Elastic.OpenTelemetry.Core/Configuration/CompositeElasticOpenTelemetryOptions.cs:484-496 | The same four cells are offered what their keys parse to, as source IConfiguration, the level with its fallback |
| `CompositeOptions.CompositeElasticOpenTelemetryOptions.AssignFromOptions` | src/Elastic.OpenTelemetry.Core/Configuration/CompositeElasticOpenTelemetryOptions.cs:502-527 | A defined level and a defined endpoint are offered as source Options |
| `CompositeOptions.SetFromEnvironment` | src/Elastic.OpenTelemetry.Core/Configuration/CompositeElasticOpenTelemetryOptions.cs:553-563 | The cell is offered the parsed variable, an absent one being empty, and left alone if it does not parse |
| `CompositeOptions.ConfigurationParser.constructor` | src/Elastic.OpenTelemetry.Core/Configuration/Parsers/ConfigurationParser.cs:23-34 | The Logging section's level: that of the Elastic.OpenTelemetry category if not empty, else that of Default |
| `CompositeOptions.ConfigurationParser.SetFromKey` | src/Elastic.OpenTelemetry.Core/Configuration/Parsers/ConfigurationParser.cs:36-49 | The cell is offered what the key's value parses to; an absent key leaves it alone |
| `CompositeOptions.ConfigurationParser.ParseLogLevel` | src/Elastic.OpenTelemetry.Core/Configuration/Parsers/ConfigurationParser.cs:57-66 | The Elastic section first; the Logging section only while the source is still Default, and then even as a null |
| `CompositeOptions.CompositeElasticOpenTelemetryOptions.SetLogLevelFromCentralConfig` | src/Elastic.OpenTelemetry.Core/Configuration/CompositeElasticOpenTelemetryOptions.cs:403-417 | A level that parses becomes the effective one whatever was configured; one that does not changes nothing |
| `CompositeOptions.CompositeElasticOpenTelemetryOptions.ResolveOpAmpServiceIdentity` | src/Elastic.OpenTelemetry.Core/Configuration/CompositeElasticOpenTelemetryOptions.cs:358-375 | An empty name becomes the value of service.name in the resource attributes and an empty version that of service.version; a known one stays, and a cached answer stays right |
| `CompositeOptions.CompositeElasticOpenTelemetryOptions.IsOpAmpEnabled` | src/Elastic.OpenTelemetry.Core/Configuration/CompositeElasticOpenTelemetryOptions.cs:379-401 | The answer, cached or not, is the fresh one |
| `CompositeOptions.CachedAnswerStaysFresh` | src/Elastic.OpenTelemetry.Core/Configuration/CompositeElasticOpenTelemetryOptions.cs:358-401 | In every run of resolutions and questions a cached true equals a fresh evaluation, a known service name is never replaced, and a question with endpoint and name known caches true |
| `CompositeOptions.IdentityFromAttributes` | src/Elastic.OpenTelemetry.Core/Configuration/CompositeElasticOpenTelemetryOptions.cs:358-375 | In every run of questions with a resolution, an identity without name and version gets the name under service.name and the version under service.version |
| `EnvironmentParsing.EnvironmentParser.EnumerateEnabled` | src/Elastic.OpenTelemetry.Core/Configuration/Parsers/EnvironmentParser.cs:20-37 | Exactly the instrumentations that are on, and whether one of them is switched individually |
| `EnvironmentParsing.EnvironmentParser.OfferInstrumentations` | src/Elastic.OpenTelemetry.Core/Configuration/Parsers/EnvironmentParser.cs:65-68 | A signal's cell is offered its enabled set exactly if one of its instrumentations is switched individually |
| `EnvironmentParsing.EnvironmentParser.OfferAllInstrumentations` | src/Elastic.OpenTelemetry.Core/Configuration/Parsers/EnvironmentParser.cs:63-78 | The same for the three signals, each with its own switch, else the overall one, else on |
| `EnvironmentParsing.EnvironmentParser.ComposeSignals` | src/Elastic.OpenTelemetry.Core/Configuration/Parsers/EnvironmentParser.cs:80-95 | Each named bit is set exactly if its count is positive; all others are those of the default |
| `EnvironmentParsing.EnvironmentParser.OfferSignals` | src/Elastic.OpenTelemetry.Core/Configuration/Parsers/EnvironmentParser.cs:97-101 | The signals cell is offered the value exactly if a switch or an individual setting says so |
| `EnvironmentParsing.EnvironmentParser.ParseInstrumentationVariables` | src/Elastic.OpenTelemetry.Core/Configuration/Parsers/EnvironmentParser.cs:48-102 | For every environment and instrumentation list: when the signals cell is offered a value, and that each signal's bit is set exactly if some instrumentation of it is on, where an instrumentation's own variable comes before its signal's and that before the overall one; a metrics switch alone offers nothing, as the guard tests traces twice |
| `EnvironmentParsing.MetricsSwitchAloneIsLost` | src/Elastic.OpenTelemetry.Core/Configuration/Parsers/EnvironmentParser.cs:97-101 | With the metrics switch as the only variable, whatever its text, the signals cell is offered nothing, although the value composed for a metrics switch of 0 lacks the bit |
| `BootstrapTiming.ActivationIsOnTime` | src/Elastic.OpenTelemetry.Core/ElasticOpenTelemetry.cs:19-32 | In every timed run activation comes at most 6000 ms after StartClient is entered, 5000 ms if StartAsync ends by its deadline, 3000 ms if the client was not retained, and then 2500 ms if moreover neither StopAsync nor Dispose blocks; a retained client has been started, and one that obeys its deadline is retained if started |
| `BootstrapTiming.BoundsAreTight` | src/Elastic.OpenTelemetry.Core/Configuration/CentralConfiguration.cs:263-298 | The 5000 and 6000 ms bounds are reached |
| `BootstrapTiming.JoinBoundsAreTight` | src/Elastic.OpenTelemetry.Core/Configuration/CentralConfiguration.cs:258-298 | The 3000 and 2500 ms bounds are reached too |
| `BootstrapTiming.MessageActivates` | src/Elastic.OpenTelemetry.Core/Configuration/CentralConfiguration.cs:293-299 | In every run a message that arrives during the wait activates the logger at that very time |
| `BootstrapTiming.WorkerEndsTheJoin` | src/Elastic.OpenTelemetry.Core/Configuration/CentralConfiguration.cs:263-299 | A worker that has ended ends the join at once: unless the client was started the logger is activated then, otherwise the wait begins then |
| `BootstrapTiming.TimerIsLateEnough` | src/Elastic.OpenTelemetry.Core/ElasticOpenTelemetry.cs:27-32 | The main path activates no later than the safety timer in every run, if and only if the logger was constructed at most 1000 ms before StartClient and StartAsync ends by its deadline, or no time before it |
| `BootstrapTiming.NeverStuck` | src/Elastic.OpenTelemetry.Core/Configuration/CentralConfiguration.cs:258-298 | Before activation some step is always possible, so the bounds do not hold for want of runs |
| `InitialConfig.FirstConfigIsStable` | src/Elastic.OpenTelemetry.Core/Configuration/CentralConfiguration.cs:428-449 | Once WaitForFirstConfig has returned true, TryGetInitialConfig gives the first exchange's message, then and in every continuation |
| `InitialConfig.FirstConfigEndsTheWait` | src/Elastic.OpenTelemetry.Core/Configuration/CentralConfiguration.cs:428-449 | In every run, once a message has been exchanged and all handlers have returned, the wait can succeed |
| `InitialConfig.ActivationLevel` | src/Elastic.OpenTelemetry.Core/ElasticOpenTelemetry.cs:190-214 | The level at activation is the first message's if the wait saw it and it parses, else the local precedence result |
| `InitialConfig.CentralLevelDecides` | src/Elastic.OpenTelemetry.Core/ElasticOpenTelemetry.cs:190-214 | For every level text that parses there is a run that activates with it, whatever the local level |
| `InitialConfig.RemoteConfigSubscriber.HandleMessage` | src/Elastic.OpenTelemetry.Core/Configuration/CentralConfiguration.cs:434-443 | The first message stays, and WaitForFirstConfig can succeed exactly when there is one |
| `InitialConfig.CreateComponents` | src/Elastic.OpenTelemetry.Core/ElasticOpenTelemetry.cs:184-214 | Undisturbed: the level is the central one if OpAMP is enabled, the wait succeeds and the message's level parses, else unchanged; the identity is resolved and the cached answer right |

## Left out

- C# memory ordering: all shared accesses are sequentially consistent, also of plain fields such as `_deferredQueue`.
- LogHandOff.CompositeLogger.Log: a sub-logger is an abstract sink that takes every event; level filtering, formatting, console and file I/O and scopes are not modelled. The additional logger is tested and used in one step, in the step system too, so a Dispose between the test and the use, which would throw in the source, is not captured.
- LogHandOff.CompositeLogger.Dispose: the disposal of the file logger, which is modelled in its own module, and of the timer is left out.
- Options equality is decided by the environment in `LoggerSingleton`: options are mutated in place, so no law about `Equals` or the hash code is claimed.
- A producer that releases the semaphore after `FileLogger` has disposed it, and so gets an exception, is not modelled; neither is file logging being switched off.
- StopAsync and Dispose of the client may throw or time out; that only counts as having reached the client.
- BootstrapTiming: code that does not block takes no time; the time between the logger's construction and StartClient is a parameter.
- CentralConfiguration's choice of client, the isolated load context and the event subscription are wiring over libraries that are not visible.
- UTF-8 decoding: values are byte sequences, and a surrogate pair of escapes is two code units. Nested objects and arrays holding strings are outside the round trip, though not outside JsonScanner.ScanMeaning.
- LogLevelHelpers.ToLogLevel and bool.TryParse are parameters; the finite maps from log level to event level are case checks only.
- The case-insensitive keys of IConfiguration: a configuration is a map keyed by the exact text.
- CompositeOptions.CompositeElasticOpenTelemetryOptions.AssignFromEnvironment: four of its ten cells; the others (log directory, targets, headers, exporter and scanning switches, container flag) have the same shape.
- CompositeOptions.CompositeElasticOpenTelemetryOptions.AssignFromIConfiguration: four of its nine keys, for the same reason.
- CompositeOptions.CompositeElasticOpenTelemetryOptions.AssignFromOptions: the level and the endpoint, for the same reason; property initializers and redaction are left out.
- CompositeOptions.CompositeElasticOpenTelemetryOptions.constructor: speaks of the four cells modelled.
- SharedComponents, the bootstrap counter, service-collection reuse, builder extension overloads, the hosting service and auto-instrumentation: wiring.
- SignalBuilder: the configure callback returns normally and does not re-enter on a builder its thread is busy with; which signals the gate lets pass is the environment's choice; Bootstrap inside the lock is not modelled.
- Event disposal and formatting in LoggingEventListener, and keyword filtering, are left out.
- SpanCompressionProcessor and ElasticCompatibilityProcessor: the first never reaches its compression path, the second is not registered.
- Signals is a set of 32 bit positions rather than an int.
