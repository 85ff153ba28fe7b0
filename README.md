# CCGui event layer and backend helpers, in Dafny

CCGui drives ComputerCraft computers from a web UI. The computer side is written in
TypeScript and compiled to Lua (cc-tstl). The server side is in Go (backend). This project
models the parts of both where the logic lives, and proves what they promise.

- **Typed events** (`cc-tstl/src/api/event.ts`). Every host event is a tuple whose first
  element is a discriminator string. Each event class lists its discriminators (`TYPES`),
  decodes a tuple with a zod-lite schema (`init`), and encodes itself back
  (`get_name` / `get_args`). `addEventInit` builds a registry. The pull helpers decode the
  next host tuple, and fall back to a generic event when the discriminator is unregistered.
  Modules: `Events`, `EventProperties`, `EventRoundTrip`, `Registry`, `EventPull`.
- **Metrics scatter-gather** (`runMetricCollector`, `runMetricProvider` in the same file).
  - On each interval timer the collector broadcasts `metric_collect`.
  - It gathers the first `metric_response` of each publisher until the expected count answers or the round's timeout fires.
  - It then flushes the payload.
  - The provider answers every collect.
  - Module `Metrics` runs over a finite trace of events and produces a log of signals.
- **zod-lite** (`cc-tstl/src/zod-lite.ts`). A schema interpreter (`ZodLite`, with its
  properties in `ZodLiteProperties`). The mutable parse context and the array, object and
  union loops are in `ZodContext`.
- **The older event layer** (`cc-tstl/src/event.ts`). Its `init` functions copy fields
  without validating them, its table is filled by plain assignment, and its pulls return
  `null` on a mismatch. Module: `LegacyEvents`.
- **Utilities** (`cc-tstl/src/utils.ts`). Modules: `Base64` (RFC 4648 section 4 alphabet and
  padding) and `Version` (`versionToParts` and the minimum-version check).
- **Backend**:
  - `ApiKey` is the in-memory key manager, with two maps kept consistent.
  - `Hub` is the websocket hub's key-id bookkeeping and its credential choice.
  - `BaseRouter` covers route classification, ping and pong.
  - `Hello` and `AuthController` are the RPC argument checks and error codes.
  - `Rpc` and `Decimal` are shared helpers.

Values the TypeScript code handles untyped are modelled as JavaScript values (`Values.Value`).
Host effects are inputs or outputs:
- the tuples the host delivers;
- the ids `os.startTimer` returns;
- the clock `os.epoch` reads;
- the signals queued or flushed.

## Model

| member | source | states |
|---|---|---|
| `Events.FromLevel` | cc-tstl/src/api/event.ts:731-736 | the level whose number is given, for every one of the six levels, or the invalid-level error; both directions |
| `Events.FromLevelAsWritten` | cc-tstl/src/api/event.ts:731-736 | `LEVELS[level]` as the code indexes it (see Findings) |
| `Events.ParseEventArgs` | cc-tstl/src/api/event.ts:7-13 | definition only; its properties are proved by `EventProperties.InitIsReference`: the schema's `safeParse` of the whole tuple gives its data, and a failure throws "Invalid event type" |
| `Events.Init` | cc-tstl/src/api/event.ts:36-937 | definition only; its properties are proved by `EventRoundTrip.Decoded`, `EventRoundTrip.RoundTrip` and `EventProperties.InitIsReference`: the static `init` of the class asked for |
| `Events.InitChar` | cc-tstl/src/api/event.ts:47-52 | definition only; its properties are proved by `EventProperties.InitIsReference` and `EventRoundTrip.RoundTrip`: `char`: the character at position 1 |
| `Events.InitKey` | cc-tstl/src/api/event.ts:72-79 | definition only; its properties are proved by `EventProperties.InitIsReference` and `EventRoundTrip.RoundTrip`: `key`/`key_up`: the key code, held flag (false on `key_up`) and up flag |
| `Events.InitPaste` | cc-tstl/src/api/event.ts:94-99 | definition only; its properties are proved by `EventProperties.InitIsReference` and `EventRoundTrip.RoundTrip`: `paste`: the pasted text |
| `Events.InitTimer` | cc-tstl/src/api/event.ts:118-124 | definition only; its properties are proved by `EventProperties.InitIsReference` and `EventRoundTrip.RoundTrip`: `timer`/`alarm`: the id, and whether the discriminator was `alarm` |
| `Events.InitTaskComplete` | cc-tstl/src/api/event.ts:157-173 | definition only; its properties are proved by `EventProperties.InitIsReference` and `EventRoundTrip.RoundTrip` and `EventRoundTrip.TaskCompleteDecode`: `task_complete`: the id and success flag, then `args[3:]` on success or the error (default "") on failure |
| `Events.InitRedstone` | cc-tstl/src/api/event.ts:187-191 | definition only; its properties are proved by `EventProperties.InitIsReference` and `EventRoundTrip.RoundTrip`: `redstone`: no fields |
| `Events.InitTerminate` | cc-tstl/src/api/event.ts:205-209 | definition only; its properties are proved by `EventProperties.InitIsReference` and `EventRoundTrip.RoundTrip`: `terminate`: no fields |
| `Events.InitDisk` | cc-tstl/src/api/event.ts:228-234 | definition only; its properties are proved by `EventProperties.InitIsReference` and `EventRoundTrip.RoundTrip`: `disk`/`disk_eject`: the side, and whether it was ejected |
| `Events.InitPeripheral` | cc-tstl/src/api/event.ts:253-259 | definition only; its properties are proved by `EventProperties.InitIsReference` and `EventRoundTrip.RoundTrip`: `peripheral`/`peripheral_detach`: the side, and whether it was detached |
| `Events.InitRednetMessage` | cc-tstl/src/api/event.ts:281-291 | definition only; its properties are proved by `EventProperties.InitIsReference` and `EventRoundTrip.RoundTrip`: `rednet_message`: sender, message and optional protocol |
| `Events.InitModemMessage` | cc-tstl/src/api/event.ts:323-333 | definition only; its properties are proved by `EventProperties.InitIsReference` and `EventRoundTrip.RoundTrip`: `modem_message`: side, channel, reply channel, message and distance |
| `Events.InitHttp` | cc-tstl/src/api/event.ts:365-377 | definition only; its properties are proved by `EventProperties.InitIsReference` and `EventRoundTrip.RoundTrip`: `http_success`/`http_failure`: url and handle, and on failure the error (default "") |
| `Events.InitWebSocketMessage` | cc-tstl/src/api/event.ts:399-409 | definition only; its properties are proved by `EventProperties.InitIsReference` and `EventRoundTrip.RoundTrip`: `websocket_message`: url, content and binary flag |
| `Events.InitWebSocketClose` | cc-tstl/src/api/event.ts:431-441 | definition only; its properties are proved by `EventProperties.InitIsReference` and `EventRoundTrip.RoundTrip`: `websocket_closed`: url, optional reason and optional code |
| `Events.InitWebSocketConnect` | cc-tstl/src/api/event.ts:470-481 | definition only; its properties are proved by `EventProperties.InitIsReference` and `EventRoundTrip.RoundTrip`: `websocket_success`/`websocket_failure`: the handle, or the error (default "") |
| `Events.InitMouse` | cc-tstl/src/api/event.ts:559-591 | definition only; its properties are proved by `EventProperties.InitIsReference` and `EventRoundTrip.RoundTrip` and `EventRoundTrip.MouseDecode`: the mouse kinds through the union schema: `monitor_touch` stores the side and button 0, the others the button |
| `Events.InitResize` | cc-tstl/src/api/event.ts:609-618 | definition only; its properties are proved by `EventProperties.InitIsReference` and `EventRoundTrip.RoundTrip`: `term_resize`/`monitor_resize`: the side for a monitor |
| `Events.InitTurtleInventory` | cc-tstl/src/api/event.ts:634-638 | definition only; its properties are proved by `EventProperties.InitIsReference` and `EventRoundTrip.RoundTrip`: `turtle_inventory`: no fields |
| `Events.InitSpeakerAudioEmpty` | cc-tstl/src/api/event.ts:656-661 | definition only; its properties are proved by `EventProperties.InitIsReference` and `EventRoundTrip.RoundTrip`: `speaker_audio_empty`: the side |
| `Events.InitComputerCommand` | cc-tstl/src/api/event.ts:678-683 | definition only; its properties are proved by `EventProperties.InitIsReference` and `EventRoundTrip.RoundTrip`: `computer_command`: `args[1:]` |
| `Events.InitGeneric` | cc-tstl/src/api/event.ts:710-714 | definition only; its properties are proved by `EventProperties.InitIsReference` and `EventRoundTrip.RoundTrip`: the generic event keeps the whole tuple; it never throws |
| `Events.InitLog` | cc-tstl/src/api/event.ts:772-783 | definition only; its properties are proved by `EventProperties.InitIsReference` and `EventRoundTrip.RoundTrip` (`EventRoundTrip.LogAsWritten` relates it to the code as written): `log`: level (through the corrected `fromLevel`), message, info and trace |
| `Events.InitMetric` | cc-tstl/src/api/event.ts:809-814 | definition only; its properties are proved by `EventProperties.InitIsReference` and `EventRoundTrip.RoundTrip`: `metric`: the data, with `{ resource_metrics: [] }` for undefined or null |
| `Events.InitMetricRegister` | cc-tstl/src/api/event.ts:835-840 | definition only; its properties are proved by `EventProperties.InitIsReference` and `EventRoundTrip.RoundTrip`: `metric_register`: the publisher id |
| `Events.InitMetricUnregister` | cc-tstl/src/api/event.ts:861-869 | definition only; its properties are proved by `EventProperties.InitIsReference` and `EventRoundTrip.RoundTrip`: `metric_unregister`: the publisher id |
| `Events.InitMetricCollect` | cc-tstl/src/api/event.ts:892-901 | definition only; its properties are proved by `EventProperties.InitIsReference` and `EventRoundTrip.RoundTrip`: `metric_collect`: request id and collection time |
| `Events.InitMetricResponse` | cc-tstl/src/api/event.ts:926-937 | definition only; its properties are proved by `EventProperties.InitIsReference` and `EventRoundTrip.RoundTrip`: `metric_response`: request id, publisher id, and the resource metrics (`[]` for undefined or null) |
| `Events.InitLogAsWritten` | cc-tstl/src/api/event.ts:772-783 | definition only; its properties are proved by `EventRoundTrip.LogAsWritten`: `LogEvent.init` as written, whose level is `LEVELS[level]` |
| `Events.Name` | cc-tstl/src/api/event.ts:38-937 | definition only; its properties are proved by `EventRoundTrip.NameInTypes` and `EventPull.DecodeWithName`: each class's `get_name()` |
| `Events.Args` | cc-tstl/src/api/event.ts:38-937 | definition only; its properties are proved by `EventRoundTrip.RoundTrip`: each class's `get_args()` |
| `Events.Encode` | cc-tstl/src/api/event.ts:15-18 | definition only; its properties are proved by `EventRoundTrip.RoundTrip` and `EventRoundTrip.ReDecode`: the tuple `[get_name(), ...get_args()]` that `emit` queues |
| `EventProperties.InitIsReference` | cc-tstl/src/api/event.ts:7-13 | every schema-validated `init` decodes exactly as the direct reading of the argument positions, and throws "Invalid event type" exactly when that reading fails |
| `EventProperties.MouseArgsPlain` | cc-tstl/src/api/event.ts:559-591 | the mouse schema is a union of tuples of plain schemas, so the union's first match decides |
| `EventProperties.HttpArgsPlain` | cc-tstl/src/api/event.ts:337-379 | the HTTP schema is a union of plain tuples |
| `EventRoundTrip.RoundTrip` | cc-tstl/src/api/event.ts:36-715 | decoding `[get_name(), ...get_args()]` of any well-formed event with its own class's `init` gives the same event back |
| `EventRoundTrip.RefRoundTrip` | cc-tstl/src/api/event.ts:36-715 | the same round trip against the direct reading, one lemma per class |
| `EventRoundTrip.TimerRoundTrip` | cc-tstl/src/api/event.ts:103-126 | a timer or alarm event keeps its id and its alarm flag through encode and decode |
| `EventRoundTrip.DiskRoundTrip` | cc-tstl/src/api/event.ts:213-236 | a disk event keeps its side and its eject flag |
| `EventRoundTrip.PeripheralRoundTrip` | cc-tstl/src/api/event.ts:238-261 | a peripheral event keeps its side and its detach flag |
| `EventRoundTrip.GenericRoundTrip` | cc-tstl/src/api/event.ts:702-715 | a generic event's name is `args[0]`, its arguments are `args[1:]`, and it re-decodes to itself |
| `EventRoundTrip.Decoded` | cc-tstl/src/api/event.ts:36-715 | whatever `init` returns belongs to the class asked for, keeps the class's invariants, and names the discriminator it came from |
| `EventRoundTrip.ReDecode` | cc-tstl/src/api/event.ts:36-715 | decode, encode, decode gives the first decoding back |
| `EventRoundTrip.NameInTypes` | cc-tstl/src/api/event.ts:36-686 | every name a non-generic event answers is one of its class's `TYPES` |
| `EventRoundTrip.MouseIndex` | cc-tstl/src/api/event.ts:485-593 | each mouse kind's discriminator sits in `MouseEvent.TYPES` |
| `EventRoundTrip.MouseDecode` | cc-tstl/src/api/event.ts:559-591 | when the mouse decoder succeeds (both directions): `monitor_touch` stores the side and button 0; the others store the button and no side; `get_args()[0]` is the first argument again |
| `EventRoundTrip.TaskCompleteDecode` | cc-tstl/src/api/event.ts:157-173 | `task_complete` accepts exactly these inputs: a success keeps `args[3:]` as params with no error; a failure keeps the error, or "" when absent, and no params |
| `EventRoundTrip.LevelRoundTrip` | cc-tstl/src/api/event.ts:717-750 | the corrected `fromLevel` inverts `getLevel` on every level |
| `EventRoundTrip.LevelRoundTripAsWritten` | cc-tstl/src/api/event.ts:725-736 | as written, DEBUG's number decodes as INFO, and the numbers of ERROR and CRITICAL are rejected |
| `EventRoundTrip.LogAsWritten` | cc-tstl/src/api/event.ts:725-783 | the log decoder as written accepts the same tuples as the corrected one up to the level; it reads the level one step up where the corrected level's number is below 4, and throws the invalid-level error above |
| `EventRoundTrip.LogRoundTripAsWritten` | cc-tstl/src/api/event.ts:760-783 | as written, no well-formed log event decodes back to itself: its level comes back different, or the decode throws |
| `EventRoundTrip.LogShiftAsWritten` | cc-tstl/src/api/event.ts:760-783 | as written, a DEBUG log comes back as INFO and an INFO log as WARNING |
| `Registry.Lookup` | cc-tstl/src/api/event.ts:36-937 | definition only; its properties are proved by `Registry.TypesOfMeaning` and `Registry.ClassTypes`: the class whose `TYPES` lists a discriminator |
| `Registry.EventRegistry.AddEventInit` | cc-tstl/src/api/event.ts:26-33 | installs the class under each discriminator in order; at the first one already installed, returns "event of type … has already been defined" and keeps the earlier installs |
| `Registry.EventRegistry.RegisterAll` | cc-tstl/src/api/event.ts:26-951 | loading every class from an empty table never throws "already defined" (the returned error is none); the table ends holding exactly the declared discriminators, each under its class |
| `Registry.FirstClashMeaning` | cc-tstl/src/api/event.ts:27-30 | the stopping position is the first discriminator already installed or repeated, and every one before it is fresh |
| `Registry.NoClash` | cc-tstl/src/api/event.ts:27-30 | fresh distinct discriminators never clash |
| `Registry.ConsistentStep` | cc-tstl/src/api/event.ts:26-33 | installing one more class keeps the table consistent |
| `Registry.FreshTypes` | cc-tstl/src/api/event.ts:26-33 | a class not yet loaded finds none of its discriminators in the table |
| `Registry.ClassTypes` | cc-tstl/src/api/event.ts:36-951 | each class's `TYPES` are distinct and belong to no other class |
| `Registry.TypesOfMeaning` | cc-tstl/src/api/event.ts:25-34 | a discriminator is registered exactly when some loaded class declares it |
| `Registry.InstalledNotGeneric` | cc-tstl/src/api/event.ts:702-715 | the generic class is never in the table |
| `Registry.ClassesDistinct` | cc-tstl/src/api/event.ts:54-951 | no class is loaded twice |
| `Registry.RegisteredName` | cc-tstl/src/api/event.ts:25-34 | after loading, every declared discriminator is installed under its own class |
| `EventPull.DecodeWith` | cc-tstl/src/api/event.ts:1049-1061 | definition only; its properties are proved by `EventPull.DecodeWithName`, `EventPull.GenericFallback` and `EventPull.ClassFromName`: the registered `init` for `args[0]`, else a generic event |
| `EventPull.MultiPull` | cc-tstl/src/api/event.ts:1063-1078 | definition only; its properties are proved by `EventPull.MultiPullFirstStop` and `EventPull.MultiPullSkip`: the do-while loop of `pullMultipleEventRaw` as a recursion over the queued tuples |
| `EventPull.NextDelivered` | cc-tstl/src/api/event.ts:1049-1061 | the tuple the host delivers to a filtered wait is the first one the filter admits |
| `EventPull.StopIndex` | cc-tstl/src/api/event.ts:1063-1078 | the first tuple that decodes to an error, a terminate or a wanted name |
| `EventPull.MultiPullFirstStop` | cc-tstl/src/api/event.ts:1063-1078 | `pullMultipleEventRaw` returns that first stopping tuple's decoding and discards every tuple before it |
| `EventPull.MultiPullSkip` | cc-tstl/src/api/event.ts:1066-1076 | a tuple that does not stop the loop is dropped |
| `EventPull.Host.constructor` | cc-tstl/src/api/event.ts:1049-1061 | the host's decoding is the registry lookup with generic fallback |
| `EventPull.Host.PullEventRaw` | cc-tstl/src/api/event.ts:1049-1061 | returns the next delivered tuple, decoded, and consumes it and the tuples before it |
| `EventPull.Host.PullMultipleEventRaw` | cc-tstl/src/api/event.ts:1063-1078 | the do-while loop returns what `MultiPull` says and leaves its remaining tuples |
| `EventPull.Host.PullFiltered` | cc-tstl/src/api/event.ts:1087-1093 | one filter goes through `pullEventRaw`, several through `pullMultipleEventRaw` |
| `EventPull.Host.PullEventAs` | cc-tstl/src/api/event.ts:1083-1096 | the pulled event (or the error thrown) with `match` true exactly when it has the requested class |
| `EventPull.DecodeWithName` | cc-tstl/src/api/event.ts:1049-1061 | a decoded event's name is `args[0]` |
| `EventPull.ClassFromName` | cc-tstl/src/api/event.ts:1053-1058 | with the registry loaded, a discriminator of class `c` decodes to a `c` event |
| `EventPull.NameFixesClass` | cc-tstl/src/api/event.ts:1053-1058 | with the registry loaded, an event's name determines its class |
| `EventPull.TerminateFromName` | cc-tstl/src/api/event.ts:195-211 | a `terminate` tuple decodes to a terminate event |
| `EventPull.TypesNonEmpty` | cc-tstl/src/api/event.ts:1087 | every non-generic class offers at least one filter |
| `EventPull.AsMismatchIsTerminate` | cc-tstl/src/api/event.ts:1083-1096 | `pullEventAs(c)` without a filter reports a mismatch only for a terminate event |
| `EventPull.SingleMismatch` | cc-tstl/src/api/event.ts:1087-1090 | the same, on the one-filter branch |
| `EventPull.MultiMismatch` | cc-tstl/src/api/event.ts:1089-1093 | the same, on the several-filter branch |
| `EventPull.RegistryRoundTrip` | cc-tstl/src/api/event.ts:1049-1061 | every well-formed non-generic event, once queued and pulled, comes back unchanged |
| `EventPull.GenericFallback` | cc-tstl/src/api/event.ts:1053-1060 | a tuple becomes a generic event exactly when no class declares its discriminator (both directions) |
| `EventPull.InitNotGeneric` | cc-tstl/src/api/event.ts:36-686 | a class's own `init` never yields a generic event |
| `EventPull.GenericOwnClass` | cc-tstl/src/api/event.ts:702-715 | an event is generic exactly when its class is the generic class |
| `Metrics.Interval` | cc-tstl/src/api/event.ts:991-993 | the interval is `max(0.05, interval_seconds)` |
| `Metrics.Entries` | cc-tstl/src/api/event.ts:1020-1022 | what `for..of` visits: an array's items or a string's characters, both ways; any other value throws as not iterable |
| `Metrics.Between` | cc-tstl/src/api/event.ts:995-1012 | definition only; its properties are proved by `Metrics.RegistrationsDuringRound`, `Metrics.RoundStart`, `Metrics.OtherTimersIgnored` and `Metrics.TerminateOnlyBetweenRounds`: one event of the outer loop |
| `Metrics.During` | cc-tstl/src/api/event.ts:1013-1034 | definition only; its properties are proved by `Metrics.FirstResponseCounts`, `Metrics.IgnoredResponses`, `Metrics.RoundTimeout` and `Metrics.RegistrationsDuringRound`: one event of the inner loop |
| `Metrics.BeginRound` | cc-tstl/src/api/event.ts:1002-1011 | definition only; its properties are proved by `Metrics.RoundStart` and `Metrics.BeginRoundValid`: the collect is queued and the timeout started |
| `Metrics.EndRound` | cc-tstl/src/api/event.ts:1036-1042 | definition only; its properties are proved by `Metrics.RoundTimeout` and `Metrics.EndRoundValid`: the flush and the next interval timer |
| `Metrics.Step` | cc-tstl/src/api/event.ts:995-1045 | definition only; its properties are proved by `Metrics.PullThrowEnds`, `Metrics.StepValid` and `Metrics.StoppedStays`: one pull of either loop, where a pull that throws ends the collector |
| `Metrics.Steps` | cc-tstl/src/api/event.ts:988-1047 | definition only; its properties are proved by `Metrics.StepsValid`, `Metrics.RequestIdsInOrder`, `Metrics.StoppedSuffix` and `Metrics.RoundGathers`: the collector over a whole trace |
| `Metrics.RunMetricCollector` | cc-tstl/src/api/event.ts:988-1047 | the outer loop ends in the state the step function reaches over the trace; a pull that throws, or a non-iterable `resource_metrics`, ends it there |
| `Metrics.PullThrowEnds` | cc-tstl/src/api/event.ts:995-1014 | a pull that throws (`pullEventRaw` on a tuple its class's schema rejects) stops the collector with that error, in a round or between rounds, and nothing is flushed or started |
| `Metrics.EmittedLogThrows` | cc-tstl/src/api/event.ts:784-791 | a log emitted with its `LogLevel` object where the schema wants a number throws "Invalid event type" when pulled |
| `Metrics.EmittedLevelDecodes` | cc-tstl/src/api/event.ts:769-771 | a log queued with its level's number, as `get_args` sends it, is pulled as the same log event |
| `Metrics.MalformedCollectThrows` | cc-tstl/src/api/event.ts:892-901 | a `metric_collect` whose request id is not a number throws when pulled |
| `Metrics.CollectRound` | cc-tstl/src/api/event.ts:1013-1042 | the inner loop of one round and its flush equal the step function over the events it consumes; it returns an open round only when the trace runs out, and a stopped collector exactly when something threw |
| `Metrics.OpenRound` | cc-tstl/src/api/event.ts:1002-1011 | the interval timer's branch takes the next request id, queues the collect stamped `epoch × 1_000_000`, counts the publishers and starts the timeout, as `BeginRound` states |
| `Metrics.FlushRound` | cc-tstl/src/api/event.ts:1036-1042 | the payload goes to `on_flush` when given, else is queued as a `metric` event; then the next interval timer starts, as `EndRound` states |
| `Metrics.Append` | cc-tstl/src/api/event.ts:1020-1022 | `collected` grows by the response's entries, in order |
| `Metrics.StoppedStays` | cc-tstl/src/api/event.ts:1043-1045 | once the collector has returned, the rest of the trace changes nothing |
| `Metrics.StoppedSuffix` | cc-tstl/src/api/event.ts:1043-1045 | the same, for any trace extending the one it stopped on |
| `Metrics.TerminateOnlyBetweenRounds` | cc-tstl/src/api/event.ts:1013-1045 | terminate ends the loop exactly when it arrives between rounds; inside a round it is ignored |
| `Metrics.IgnoredResponses` | cc-tstl/src/api/event.ts:1016-1023 | a response to another request, or a second one from the same publisher, changes nothing |
| `Metrics.OtherTimersIgnored` | cc-tstl/src/api/event.ts:995-1034 | a timer with another id changes nothing |
| `Metrics.RoundStart` | cc-tstl/src/api/event.ts:1002-1013 | the interval timer queues a collect with the next request id and `epoch × 1_000_000`, starts the timeout, and expects the current publisher count; with no publishers it flushes at once |
| `Metrics.RoundTimeout` | cc-tstl/src/api/event.ts:1028-1042 | the round's timeout flushes to `on_flush`, or queues a `metric` event, and then starts the next interval timer |
| `Metrics.FirstResponseCounts` | cc-tstl/src/api/event.ts:1013-1023 | a first response counts whether or not its publisher is registered; the round ends with it exactly when the responders reach the expected count; a non-iterable `resource_metrics` throws and stops the collector |
| `Metrics.RegistrationsDuringRound` | cc-tstl/src/api/event.ts:1024-1027 | register and unregister update the publisher set mid-round and nothing else |
| `Metrics.RequestIdsInOrder` | cc-tstl/src/api/event.ts:1003-1006 | the collects queued carry request ids 1, 2, 3, …, one per round, in order |
| `Metrics.StepValid` | cc-tstl/src/api/event.ts:988-1047 | one step keeps the collector's invariant, and the request id grows by at most one, only when a round starts |
| `Metrics.StepsValid` | cc-tstl/src/api/event.ts:988-1047 | every reachable state keeps the invariant, and request ids never decrease |
| `Metrics.BeginRoundValid` | cc-tstl/src/api/event.ts:1002-1011 | starting a round keeps the invariant and raises the request id by one |
| `Metrics.EndRoundValid` | cc-tstl/src/api/event.ts:1036-1042 | ending a round keeps the invariant |
| `Metrics.CollectsAppend` | cc-tstl/src/api/event.ts:1004-1008 | the collects in a log split over concatenation |
| `Metrics.RoundGathers` | cc-tstl/src/api/event.ts:1013-1034 | an open round has gathered exactly the samples of the first response of each distinct publisher to its own request id, compared against an independent reference |
| `Metrics.Threw` | cc-tstl/src/api/event.ts:971-973 | the error of the first pull that throws; none exactly when every pull decodes |
| `Metrics.Answers` | cc-tstl/src/api/event.ts:971-985 | definition only; its properties are proved by `Metrics.ProviderAnswers` and `Metrics.ThrewSuffix`: the answers queued for the pulls before the first one that throws |
| `Metrics.ThrewSuffix` | cc-tstl/src/api/event.ts:971-973 | after a pull has thrown, later pulls add no answer and leave the error as it was |
| `Metrics.RunMetricProvider` | cc-tstl/src/api/event.ts:966-986 | registers once, then answers each matched collect in order, until a pull throws; it returns that error |
| `Metrics.ProviderAnswers` | cc-tstl/src/api/event.ts:971-985 | each answer carries the collect's request id, the publisher id, and the callback's samples (`[]` for undefined) |
| `Metrics.ProviderRegistersOnce` | cc-tstl/src/api/event.ts:966-985 | `metric_register` is queued only as the first signal |
| `Metrics.Samples` | cc-tstl/src/api/event.ts:976-984 | undefined samples are sent as `[]` |
| `Metrics.CollectDecodes` | cc-tstl/src/api/event.ts:876-906 | a queued collect reaches the provider as the same event |
| `Metrics.ResponseDecodes` | cc-tstl/src/api/event.ts:908-951 | a provider's answer reaches the collector with its request id, publisher and samples |
| `ZodLite.Run` | cc-tstl/src/zod-lite.ts:59-186 | definition only; its properties are proved in `ZodLiteProperties` (`ScalarSchemas` to `UnionNoMatch`) and tied to the context loops by `ZodContext.Parser`: each schema's parser on a context |
| `ZodLite.SafeParse` | cc-tstl/src/zod-lite.ts:59-67 | definition only; its properties are proved by `ZodLiteProperties.SafeParseIssues`, `ZodLiteProperties.AdmitsIff` and `ZodContext.SafeParseWith`: a fresh context, then success with the data or failure with the issues |
| `ZodLiteProperties.ScalarSchemas` | cc-tstl/src/zod-lite.ts:101-126 | string, number and boolean accept exactly their own type, and number rejects NaN; a failure is the one issue with `expected` and `typeOf` |
| `ZodLiteProperties.LiteralSchema` | cc-tstl/src/zod-lite.ts:128-135 | a literal accepts exactly itself and returns itself |
| `ZodLiteProperties.OptionalNullable` | cc-tstl/src/zod-lite.ts:79-93 | `optional` accepts undefined, `nullable` accepts null, and each otherwise defers to the inner schema |
| `ZodLiteProperties.ArraySchema` | cc-tstl/src/zod-lite.ts:137-153 | non-arrays fail; an array succeeds exactly when every element does, with the same length and each element parsed; a failure adds no issue of the element's |
| `ZodLiteProperties.ObjectSchema` | cc-tstl/src/zod-lite.ts:155-172 | non-objects fail; an object succeeds exactly when every shape field does; the output has exactly the shape's keys, each parsed |
| `ZodLiteProperties.UnionFirstMatch` | cc-tstl/src/zod-lite.ts:174-186 | the first option in declaration order that succeeds gives the value |
| `ZodLiteProperties.UnionNoMatch` | cc-tstl/src/zod-lite.ts:182-185 | when none succeeds, the single issue "No union variant matched" |
| `ZodLiteProperties.TupleAccepts` | cc-tstl/src/api/event.ts:36-40 | a positional tuple succeeds with each position's value |
| `ZodLiteProperties.TupleRejects` | cc-tstl/src/api/event.ts:36-40 | one failing position fails the tuple |
| `ZodLiteProperties.PlainTuple` | cc-tstl/src/api/event.ts:36-40 | a tuple of plain schemas returns its input padded to its length, or fails |
| `ZodLiteProperties.PlainUnionOnly` | cc-tstl/src/zod-lite.ts:174-186 | a union of tuples whose other options all reject a position is decided by the one option left |
| `ZodLiteProperties.SafeParseIssues` | cc-tstl/src/zod-lite.ts:43-67 | a failure reports at most one issue, and every issue has the empty path |
| `ZodLiteProperties.AdmitsIff` | cc-tstl/src/zod-lite.ts:101-186 | a plain schema's parse succeeds exactly on the values an independent admission predicate accepts |
| `ZodLiteProperties.PlainIdentity` | cc-tstl/src/zod-lite.ts:101-186 | a plain schema returns its input unchanged |
| `ZodLiteProperties.Parse` | cc-tstl/src/zod-lite.ts:69-77 | `parse` gives the data, or raises the first issue's message, or "Invalid value" when there is no issue |
| `ZodContext.ParseContext.constructor` | cc-tstl/src/zod-lite.ts:61 | a fresh context has an empty path and no issues |
| `ZodContext.ParseContext.AddIssue` | cc-tstl/src/zod-lite.ts:43-50 | appends one issue carrying a copy of the current path |
| `ZodContext.ParseContext.WithPath` | cc-tstl/src/zod-lite.ts:52-57 | returns the nested parse's result, and leaves path and issues as it found them |
| `ZodContext.ParseArray` | cc-tstl/src/zod-lite.ts:137-153 | the element loop gives the interpreter's array result and adds no issue |
| `ZodContext.ParseObject` | cc-tstl/src/zod-lite.ts:155-172 | the key loop gives the interpreter's object result and adds no issue |
| `ZodContext.ParseUnion` | cc-tstl/src/zod-lite.ts:174-186 | the option loop gives the interpreter's union result and its one issue |
| `ZodContext.Parser` | cc-tstl/src/zod-lite.ts:59-186 | every parser on a context gives the interpreter's value and appends the interpreter's issues, and leaves the path as found |
| `ZodContext.SafeParseWith` | cc-tstl/src/zod-lite.ts:59-67 | `safeParse` over a fresh context equals the interpreter's `SafeParse` |
| `ZodContext.MergeStep` | cc-tstl/src/zod-lite.ts:162-170 | assigning one key and then the rest equals the interpreter's step |
| `LegacyEvents.Init` | cc-tstl/src/event.ts:9-522 | definition only; its properties are proved by `LegacyEvents.InitSoundness`, `LegacyEvents.MismatchOutcome` and `LegacyEvents.InitNeverTerminated`: the static `init` of each class |
| `LegacyEvents.InitSoundness` | cc-tstl/src/event.ts:9-522 | each `init` yields an event exactly on its own discriminators (always, for the generic class); the event has that class; on a lossless tuple it re-decodes to itself |
| `LegacyEvents.MismatchOutcome` | cc-tstl/src/event.ts:18-20 | on a foreign discriminator, char, key and paste return null; mouse returns null only for a non-string; every other class throws "Invalid event type" |
| `LegacyEvents.HttpDecode` | cc-tstl/src/event.ts:284-302 | `http_failure` keeps `args[3]` as handle, with error "" when missing; `http_success` has a null error |
| `LegacyEvents.MouseDecode` | cc-tstl/src/event.ts:374-407 | `monitor_touch` sets button 0 and side `args[1]`; the others keep the button and no side |
| `LegacyEvents.WebSocketFailureWithoutMessage` | cc-tstl/src/event.ts:305-341 | a `websocket_failure` with no message re-encodes as a success |
| `LegacyEvents.Initializers.Assign` | cc-tstl/src/event.ts:526-528 | one `forEach` assigns the class to each of its discriminators, overwriting |
| `LegacyEvents.Initializers.InstallAll` | cc-tstl/src/event.ts:524-579 | the eighteen assignments in order give the installed table |
| `LegacyEvents.InstalledKeys` | cc-tstl/src/event.ts:524-579 | a discriminator is installed exactly when it was already there or some registration names it |
| `LegacyEvents.LastAssignmentWins` | cc-tstl/src/event.ts:524-579 | with no duplicate check, the last registration naming a discriminator owns it |
| `LegacyEvents.RegistrationOwner` | cc-tstl/src/event.ts:524-579 | each registration lists exactly its class's discriminators, and no class registers twice |
| `LegacyEvents.LegacyTableLookup` | cc-tstl/src/event.ts:524-579 | the loaded table maps the declared discriminators, and nothing else, to their classes |
| `LegacyEvents.OwnerIndex` | cc-tstl/src/event.ts:524-579 | every non-generic class has its registration |
| `LegacyEvents.OwnerTypes` | cc-tstl/src/event.ts:9-494 | a class lists a discriminator exactly when it owns it |
| `LegacyEvents.PullEventRaw` | cc-tstl/src/event.ts:581-587 | definition only; its properties are proved by `LegacyEvents.PullEventRawDispatch` and `LegacyEvents.PullRoundTrip` |
| `LegacyEvents.PullEvent` | cc-tstl/src/event.ts:588-592 | definition only; its properties are proved by `LegacyEvents.PullEventTerminates` |
| `LegacyEvents.PullEventRawAs` | cc-tstl/src/event.ts:593-600 | definition only; its properties are proved by `LegacyEvents.PullAsNarrows` |
| `LegacyEvents.PullEventAs` | cc-tstl/src/event.ts:601-608 | definition only; its properties are proved by `LegacyEvents.PullAsNarrows` |
| `LegacyEvents.PullEventRawDispatch` | cc-tstl/src/event.ts:581-587 | a registered discriminator goes to its `init`, whose null passes through; anything else becomes a generic event |
| `LegacyEvents.InitNeverTerminated` | cc-tstl/src/event.ts:9-522 | no `init` throws "Terminated" |
| `LegacyEvents.PullEventTerminates` | cc-tstl/src/event.ts:588-592 | `pullEvent` throws "Terminated" exactly on a terminate event and otherwise returns the raw result |
| `LegacyEvents.PullAsNarrows` | cc-tstl/src/event.ts:593-608 | `pullEventRawAs` and `pullEventAs` return the event exactly when it has the class asked for, and null otherwise |
| `LegacyEvents.PullRoundTrip` | cc-tstl/src/event.ts:581-587 | a decoded, encoded event pulled through the loaded table comes back |
| `Base64.Encode` | cc-tstl/src/utils.ts:56-89 | definition only; its properties are proved by `Base64.EncodeLength`, `Base64.EncodeShape` and `Base64.RoundTrip`: three bytes per group, then the padded tail |
| `Base64.DecodeGroup` | cc-tstl/src/utils.ts:94-117 | definition only; its properties are proved by `Base64.GroupRoundTrip`, `Base64.TailRoundTrip` and `Base64.GroupErrors` |
| `Base64.Decode` | cc-tstl/src/utils.ts:91-120 | definition only; its properties are proved by `Base64.RoundTrip` and `Base64.DecodeIgnoresPartialGroup`: each whole four-byte group of the encoded byte string in turn |
| `Base64.Base64Encode` | cc-tstl/src/utils.ts:56-89 | the encoding loop computes `Encode` |
| `Base64.Base64Decode` | cc-tstl/src/utils.ts:91-120 | the decoding loop over the encoded bytes computes `Decode`, or the error a non-alphabet digit raises (`bit.lshift`'s for an earlier digit of a group, `+`'s for its last) |
| `Base64.GroupErrors` | cc-tstl/src/utils.ts:94-117 | a group fails exactly when one of the bytes it reads as digits is outside the alphabet; the error is the arithmetic one exactly when only the last such digit is bad, and `lshift`'s otherwise |
| `Base64.MultiByteCharacter` | cc-tstl/src/utils.ts:91-120 | groups are four bytes, not four characters: the UTF-8 bytes of "AAAAAA€" throw `lshift`'s error in the second group |
| `Base64.EncodeFrom` | cc-tstl/src/utils.ts:58-72 | one loop step encodes one three-byte group |
| `Base64.EncodeLength` | cc-tstl/src/utils.ts:56-89 | the output length is 4·⌈n/3⌉ |
| `Base64.EncodeShape` | cc-tstl/src/utils.ts:73-87 | the output is alphabet bytes followed by exactly (3 − n mod 3) mod 3 '=' |
| `Base64.GroupRoundTrip` | cc-tstl/src/utils.ts:107-117 | a full group decodes to its three bytes |
| `Base64.TailRoundTrip` | cc-tstl/src/utils.ts:94-106 | a "==" group decodes to its one byte, a "=" group to its two |
| `Base64.RoundTrip` | cc-tstl/src/test_utils.ts:9-16 | decoding an encoding gives the bytes back |
| `Base64.DecodeIgnoresPartialGroup` | cc-tstl/src/utils.ts:93 | a trailing partial group of fewer than four bytes is ignored |
| `Version.ParseInt` | cc-tstl/src/utils.ts:8-10 | definition only; its properties are proved by `Version.LeadingDigits` and `Version.PartsOfFormat`: the leading decimal digits, or NaN |
| `Version.VersionToParts` | cc-tstl/src/utils.ts:5-12 | definition only; its properties are proved by `Version.PartsOfFormat`: the three pieces, "0" for a missing one |
| `Version.MeetsMinimumAsWritten` | cc-tstl/src/utils.ts:31-36 | definition only; its properties are proved by `Version.AsWrittenIsComponentwise` and `Version.NewerMajorRejected` |
| `Version.MeetsMinimum` | cc-tstl/src/utils.ts:31-36 | definition only; its properties are proved by `Version.MeetsMinimumIsOrder` and `Version.NotBeforeOrder` |
| `Version.Split` | cc-tstl/src/utils.ts:6 | `split(".")` returns at least one piece |
| `Version.LeadingDigits` | cc-tstl/src/utils.ts:8-10 | `parseInt` reads a prefix of its piece |
| `Version.PartsOfFormat` | cc-tstl/src/utils.ts:5-12 | `versionToParts` reads back the three numbers of "a.b.c" |
| `Version.AsWrittenIsComponentwise` | cc-tstl/src/utils.ts:31-36 | the check as written passes exactly when every component is at least the minimum's |
| `Version.NewerMajorRejected` | cc-tstl/src/utils.ts:31-36 | the check as written refuses 2.0.0 against 1.85.0, while the corrected order accepts it |
| `Version.MeetsMinimumIsOrder` | cc-tstl/src/utils.ts:31-36 | the corrected check is the lexicographic version order |
| `Version.NotBeforeOrder` | cc-tstl/src/utils.ts:31-36 | the corrected order is transitive and total, and accepts whatever the componentwise check accepts |
| `Decimal.ValueShow` | backend/internal/controller/hello.go:47 | reading back printed decimal digits gives the number |
| `ApiKey.InsertConsistent` | backend/internal/auth/apikey.go:53-70 | storing a record under a new id and a new hash keeps the two maps consistent |
| `ApiKey.RemoveConsistent` | backend/internal/auth/apikey.go:116-122 | removing a record from both maps keeps them consistent |
| `ApiKey.CollidingHashBreaksConsistency` | backend/internal/auth/apikey.go:53-64 | reusing a stored hash breaks consistency |
| `ApiKey.Manager.constructor` | backend/internal/auth/apikey.go:25-31 | both maps empty |
| `ApiKey.Manager.Validate` | backend/internal/auth/apikey.go:73-79 | definition only; its properties are proved by `ApiKey.Manager.ResolveID`, `ApiKey.Manager.Generate` and `ApiKey.Manager.Delete`: the key's hash is stored |
| `ApiKey.Manager.ResolveID` | backend/internal/auth/apikey.go:81-90 | succeeds exactly when `Validate` does; otherwise `("", false)`; the id is that of the record with the key's hash |
| `ApiKey.Manager.Generate` | backend/internal/auth/apikey.go:39-71 | an id or random-source error is returned and nothing changes; otherwise the record goes into both maps, and the returned key validates and resolves to the returned id |
| `ApiKey.Manager.GetAll` | backend/internal/auth/apikey.go:92-103 | exactly one summary per entry of `keys` |
| `ApiKey.Manager.Delete` | backend/internal/auth/apikey.go:105-123 | an unparsable id is `ErrInvalidKeyID` and an unknown one `ErrKeyNotFound`, each changing nothing; otherwise the record leaves both maps, its key stops validating, other keys are unaffected, and the caller's id text comes back |
| `Hub.Credential` | backend/internal/websocket/hub.go:97-114 | a non-empty query key, or else the remainder of a "Bearer " header; without a query key there is a credential exactly when the header starts with "Bearer " |
| `Hub.IsAuthorized` | backend/internal/websocket/hub.go:97-114 | no validator lets everything in; otherwise the presented credential, if any, is validated |
| `Hub.ResolveKeyID` | backend/internal/websocket/hub.go:131-151 | "" unless the validator resolves; otherwise the presented credential's id, or "" |
| `Hub.QueryKeyTakesPrecedence` | backend/internal/websocket/hub.go:102-111 | with a query key, the header changes neither answer |
| `Hub.ResolvedIsAuthorized` | backend/internal/websocket/hub.go:131-151 | a request that resolves to an id is authorized, when resolving and validating agree |
| `Hub.Hub.constructor` | backend/internal/websocket/hub.go:29-41 | no clients and no key ids |
| `Hub.Hub.AttachKeyID` | backend/internal/websocket/hub.go:153-160 | creates the set when absent and adds the connection |
| `Hub.Hub.DetachKeyID` | backend/internal/websocket/hub.go:162-171 | no change for an absent id; otherwise removes the connection and drops an emptied entry, so no empty set remains |
| `Hub.Hub.CloseByKeyID` | backend/internal/websocket/hub.go:116-129 | "" is a no-op; otherwise the entry goes and each of its connections leaves `clients` |
| `Hub.Hub.Connect` | backend/internal/websocket/hub.go:59-64 | the connection becomes a client and is attached under its key id when it has one |
| `Hub.Hub.Disconnect` | backend/internal/websocket/hub.go:69-74 | the connection stops being a client and is detached: it leaves its key id's set, which is dropped when emptied, and every other key id keeps its set |
| `Hub.Hub.Deliver` | backend/internal/websocket/hub.go:86-93 | one broadcast: exactly the clients whose write fails leave `clients`, and the key-id map is left as it was, so a dropped connection stays under its key id until it is detached; no empty set appears |
| `BaseRouter.BaseRouteFromInt` | backend/internal/websocket/base_router.go:20-28 | 0 and 1 map to themselves; every other integer maps to Invalid |
| `BaseRouter.FromIntIdempotent` | backend/internal/websocket/base_router.go:14-28 | the conversion is idempotent and fixes Ping and Pong |
| `BaseRouter.BaseRouterDecoder` | backend/internal/websocket/base_router.go:30-43 | a decode error is passed on; an out-of-range integer is Invalid with "invalid route"; otherwise the route, with no error |
| `BaseRouter.HandlePing` | backend/internal/websocket/base_router.go:45-53 | no connection is an error; otherwise a pong with the same data, and the write's error |
| `BaseRouter.HandlePong` | backend/internal/websocket/base_router.go:55-57 | never an error |
| `BaseRouter.PingExchange` | backend/internal/websocket/base_router.go:30-57 | a ping routed and answered on a working connection gets the same data back without error, and the reply is routed as a pong, which is not answered |
| `Hello.Say` | backend/internal/controller/hello.go:17-51 | A missing, then B missing, then a·b > 1000 (OutOfRange); success exactly when both are present and a·b ≤ 1000 |
| `Hello.SayResult` | backend/internal/handler/hello.go:35-48 | on success the message is "Result: " followed by the product, which reads back |
| `Hello.SayBound` | backend/internal/controller/hello.go:39-44 | a product of 1000 succeeds, 1001 is out of range, and there is no lower bound |
| `Hello.ReadFormat` | backend/internal/controller/hello.go:47 | `%d` of an integer reads back |
| `Hello.TrimSpace` | backend/internal/controller/hello.go:57 | the part between leading and trailing whitespace, which neither starts nor ends with whitespace |
| `Hello.TrimIdempotent` | backend/internal/controller/hello.go:57 | trimming twice changes nothing more |
| `Hello.TrimAllSpace` | backend/internal/controller/hello.go:57-63 | an all-whitespace name trims to nothing |
| `Hello.TrimAllSpaceConverse` | backend/internal/controller/hello.go:57-63 | a name that trims to nothing is all whitespace |
| `Hello.Greet` | backend/internal/controller/hello.go:53-72 | refused (InvalidArgument) exactly when the name is all whitespace; otherwise "Hello, <trimmed>!" |
| `AuthController.GenerateKey` | backend/internal/controller/auth.go:28-46 | an empty name is InvalidArgument whatever the manager says; a manager error is Internal; otherwise the key is echoed |
| `AuthController.ErrorText` | backend/internal/auth/apikey.go:22-23 | definition only; `AuthController.DeleteKey` states how it is used: the text of each manager error, without the parser detail an invalid id wraps (see Left out) |
| `AuthController.DeleteCode` | backend/internal/controller/auth.go:54-63 | invalid id → InvalidArgument, not found → NotFound, anything else → Internal, each both ways |
| `AuthController.DeleteKey` | backend/internal/controller/auth.go:48-71 | an empty id is InvalidArgument; a manager error keeps its text under `DeleteCode`; otherwise the summary is echoed |
| `AuthController.GetAllKeys` | backend/internal/controller/auth.go:73-82 | a manager error is Internal; otherwise the summaries pass through |
| `AuthController.DeleteCodes` | backend/internal/controller/auth.go:48-71 | for a non-empty id, InvalidArgument comes only from an unparsable id and NotFound only from an unknown one |

## Left out

- JavaScript semantics are modelled, not the Lua that TypeScriptToLua emits. `undefined` and `null` are told apart, and arrays are 0-based. Lua's single `nil` and 1-based tables are not modelled.
- For `coroutine.yield`, the host's queue is an input sequence of tuples. Whether a filtered wait still receives `terminate` is a parameter of the host (`terminatePassesFilter`), not behaviour.
- `os.startTimer`, `os.epoch` and `os.queueEvent` are modelled as follows:
  - timer ids are an input function;
  - the clock value of each event is an input;
  - queued events, started timers and flushes form an output log.
  - Elapsed time is not modelled.
  - Durations are reals, used only for the clamp and the halving.
- Metrics.BeginRound: JavaScript and Lua numbers are modelled as exact reals (`Values.Value`'s `Num`), not IEEE doubles. `Metrics.OpenRound` and `Metrics.BeginRound` therefore stamp each collect with the exact `epoch × 1_000_000`. The source's double product is rounded to a neighbouring double once it passes 2^53, as it does for every present-day epoch. There is also no Infinity, which `z.number()` accepts, and no -0.
- Metrics.OpenRound: computes the exact product `epoch × 1_000_000`, not the rounded double (see the `Metrics.BeginRound` line).
- Metrics.RoundStart: states the exact product `epoch × 1_000_000` as the collect's time, not the rounded double the source queues (see the `Metrics.BeginRound` line).
- The `on_flush` and provider callbacks are opaque. Only whether `on_flush` is given, and what the provider returns, are modelled. The OTLP metrics types in `cc-tstl/src/api/metrics.ts` are opaque values.
- `z.literalArray` and `z.unknown` are used by the event schemas but are not defined in `cc-tstl/src/zod-lite.ts`.
  - `literalArray` is modelled as a positional tuple: absent positions read as undefined, and extra trailing elements are ignored.
  - `unknown` accepts anything.
- `.default` is not modelled.
- zod-lite's no-op mode (`noopSchema`, `_zNoop`) is not modelled: `DEBUG_MODE` is true. In that mode every `safeParse` would succeed with its input.
- Because array, object and union parse their children through `safeParse` with a fresh context, nested issues are dropped. Every reported issue therefore has the empty path (`ZodLiteProperties.SafeParseIssues`). That is the code's behaviour, not the path reporting zod-lite's design describes.
- The printing in `requireMinVersion`, its lookup of `_CC_VERSION`, `os.version` and `_HOST`, and the thrown assertion are not modelled. Only the comparison is.
- Version.ParseInt: reads the leading decimal digits only. Leading whitespace, a sign and a "0x" prefix are not modelled; version pieces contain none of them.
- `utils.ts` on bytes: both the plain text and the encoded text are Lua byte strings, so `string.byte` and `string.char` are the identity on the byte sequence. A TypeScript string that reaches `base64decode` is its UTF-8 bytes; that conversion is not modelled. Lua string patterns are only modelled as the fixed-size groups `gmatch` yields.
- LegacyEvents.InitSoundness: the re-decoding half assumes a lossless tuple. That means a websocket payload that is not undefined, a `monitor_resize` side that is not undefined, and a non-empty generic tuple; outside these, `get_args` cannot tell undefined from null (`LegacyEvents.WebSocketFailureWithoutMessage`).
- EventRoundTrip.Decoded: a generic tuple must be non-empty, since an empty one has no name to re-encode. For log events it is stated for the corrected `fromLevel`; as written a decoded log's level is one step up (`EventRoundTrip.LogAsWritten`).
- EventProperties.InitIsReference: the log class is stated for the corrected `fromLevel`. As written the level is `LEVELS[level]`, which `EventRoundTrip.LogAsWritten` relates to it.
- EventRoundTrip.RoundTrip: holds for log events only with the corrected `fromLevel`. As written a log event comes back one level up, or its decode throws for ERROR and CRITICAL (`EventRoundTrip.LogRoundTripAsWritten`).
- EventRoundTrip.RefRoundTrip: the log case is the same corrected round trip; see `EventRoundTrip.LogRoundTripAsWritten` for the code as written.
- EventRoundTrip.ReDecode: for log events, with the corrected `fromLevel`. As written each decode raises the level one step (`EventRoundTrip.LogShiftAsWritten`).
- EventPull.RegistryRoundTrip: a queued log event comes back unchanged only with the corrected `fromLevel` (`EventRoundTrip.LogRoundTripAsWritten`).
- Metrics.Entries: follows JavaScript's `for..of`. A string is iterated by characters. The Lua that `for..of` compiles to is not modelled.
- The message "Unexpected failure to parse event" in the pull helpers is unreachable in the model: every modelled `init` returns an event or throws.
- sha256 with base64url (`hashAPIKey`), `crypto/rand`, `uuid.NewRandom`, `uuid.Parse` and `UUID.String` are inputs or uninterpreted functions of the manager.
- AuthController.ErrorText: the text of an unparsable id is "invalid key id". The source's `fmt.Errorf("%w: %v", ErrInvalidKeyID, err)` also appends the parser's detail, which `DeleteKey` passes on; that detail is not kept.
- ApiKey.Manager.Generate: keeps the maps consistent only when the fresh id and the key's hash are not already stored. `ApiKey.CollidingHashBreaksConsistency` shows why that side condition is needed.
- The Go mutexes and key subscriptions (`SubscribeDeletes`, `notifyDeleteLocked`) are not modelled. Every operation is taken as atomic.
- The `HandleWS` upgrade, the messages its read loop forwards, the broadcast channel and the close frames are not modelled. Only the client and key-id bookkeeping is: `Connect` and `Disconnect` for `HandleWS`, and `Deliver` for one message of `Run`, with the set of failing writes as an input. Connections are opaque ids.
- `backend/internal/websocket/router.go` and `message.go` are not modelled, and neither is the handler registration in `NewBaseRouter`. The msgpack decoding is an input to `BaseRouterDecoder`.
- The width of A and B in the hello RPCs is not known, so products are unbounded integers. The `log.Printf` in `Greet` and the `slog.Info("sent message", …)` in `handlePing` are not modelled.
- `Hello.IsSpace` uses the White_Space set that `unicode.IsSpace` uses. Go's UTF-8 decoding of the name is not modelled: a name is a sequence of characters.
- The database-backed service, the repositories, the server's middleware and the frontend are not part of this model.

## Findings

| source | as written | input that shows it | evidently intended | confidence | as-written member | corrected member |
|---|---|---|---|---|---|---|
| cc-tstl/src/api/event.ts:731-736 | `fromLevel(level)` returns `LEVELS[level]`, but `LEVELS` starts at DEBUG, whose level is 1 | `fromLevel(DEBUG.getLevel())` (1) gives INFO; the numbers of ERROR (4) and CRITICAL (5) are rejected | the level whose `getLevel()` is `level`, so that a log event round-trips | not executed | `EventRoundTrip.LevelRoundTripAsWritten` | `EventRoundTrip.LevelRoundTrip` |
| cc-tstl/src/utils.ts:31-36 | each of major, minor and patch must be at least the minimum's, independently | version "2.0.0" against the minimum "1.85.0" is refused, because 0 < 85 | the version order: major first, then minor, then patch | not executed | `Version.NewerMajorRejected` | `Version.MeetsMinimumIsOrder` |
| cc-tstl/src/api/event.ts:784-791 | `LogEvent.emit` queues the `LogLevel` object itself as the level argument, where the log schema's `z.number()` wants a number | `LogEvent.emit(INFO, "x")`: its pull throws "Invalid event type" | queue `level.getLevel()`, the number `get_args` sends | not executed | `Metrics.EmittedLogThrows` | `Metrics.EmittedLevelDecodes` |

The event layer decodes log events with the corrected `Events.FromLevel`. `Events.FromLevelAsWritten` and `Events.InitLogAsWritten` are kept alongside for the first finding; `EventRoundTrip.LogRoundTripAsWritten` shows that as written no log event round-trips. For the second, `Version.MeetsMinimumAsWritten` models the check as written and `Version.MeetsMinimum` the corrected one. For the third, events are modelled by the tuples they are queued as, so the corrected `emit` is the tuple `Events.Encode` gives a log event.
