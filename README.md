# sensor-hub core, modelled in Dafny

This project models the sensor-hub service's core: finding I2C sensors,
keeping track of them, and polling them.

- **Discovery.** The hub parses the `i2cdetect` address grid in two
  different ways, one per discovery routine. It verifies PCA9548
  multiplexers and walks their channels. From what it finds, it builds
  BME280 and LTR329 descriptors with deterministic ids.
- **Registry.** The `SensorRegistry` maps sensor types to classes and to
  discovery handlers, case-insensitively.
- **Reconciliation.** The discovery service reconciles descriptors with the
  `sensors` table and runs connectivity tests.
- **Collection.** Three loops collect readings, each with its own failure
  policy:
  - the `start-scheduler` command;
  - `DataCollectionService`;
  - the `collect_once` script.
- **Drivers.** The model covers the state machines of the sensor objects:
  `SensorInterface`, `MockSensor`, and the BME280, LTR329 and MPU6050
  drivers.

The model has these parts.

- **Bus (`Hardware`).** The I2C bus is an `I2cBus` object with an answer
  oracle.
  - The oracle answers each transaction as a function of the bus history so
    far and the transaction itself.
  - The object records every transaction it issues in `trace`.
  - Calls into the Adafruit driver objects show up as transactions as well.
- **Specification functions and methods.** Every discovery routine and
  driver operation has a specification function. It gives both the result
  and the exact list of transactions. The methods that issue those
  transactions are proved against these functions.
- **Database (`Store`).** The database is a session view plus the last
  committed state.
  - A commit either makes the whole session durable or loses all of it.
  - Whether the n-th commit reaches the database is a parameter. A commit
    that reaches it still fails when the session breaks the schema.
- **Device behaviour (`Registry.Fleet`).** An oracle decides three things:
  - whether a sensor constructor returns;
  - what `is_available()` answers in a given round;
  - what `read()` gives in a given round.
- **Python values (`Values`, `PyText`).** Python dicts are
  `map<string, Value>`, which keeps `.get` defaults, `in` tests and
  truthiness exact. The Python string operations the code relies on are
  written out: `split()`, `split('\n')`, `strip()`, `int(s, 16)`, the
  `02x` format, `lower()` and `replace`. `lower()` and `int(s, 16)` are
  written out for ASCII text only (see "Left out").
- **Database schema (`Store`).** A commit also fails when the session
  breaks the schema of `src/sensor_hub/models/__init__.py`: a `sensors` row
  whose `name` is `None` (the column is NOT NULL), or a reading whose JSON
  `data` holds a `datetime`, which the JSON column cannot serialise.

Where the docstrings and comments of the code and its behaviour disagree,
the model follows the behaviour:

- **Multiplexer fields are not compared.** The reconciler compares only six
  columns. It never compares the multiplexer fields.
- **BME280 `read` keeps the error count.** A successful read does not reset
  `error_count`.
- **The LTR329 routine does not verify.** It neither disables nor verifies
  multiplexers before scanning them.

## Model

| member | source | states |
|---|---|---|
| I2cDetect.ScanRowByColumn | src/sensor_hub/sensor_registry.py:111-114 | one BME280 grid row yields the row label plus the column index of each cell that is not `--`/`UU`, in column order |
| I2cDetect.ScanRowByText | src/sensor_hub/sensor_registry.py:260-266 | one LTR329 grid row yields the hex value of every occupied cell that parses, skipping cells that raise `ValueError` |
| I2cDetect.ScanBmeLine | src/sensor_hub/sensor_registry.py:105-114 | a line of fewer than two tokens adds nothing; a row label that is not hex raises (ends the routine); otherwise the row's addresses |
| I2cDetect.ParseBmeGrid | src/sensor_hub/sensor_registry.py:101-114 | the BME280 parser over every line after the header, stopping with the error at the first bad label |
| I2cDetect.ParseLtrGrid | src/sensor_hub/sensor_registry.py:254-266 | the LTR329 parser over the stripped output's lines after the header |
| I2cDetect.ScanLtrLines | src/sensor_hub/sensor_registry.py:257-266 | rows with more than one token contribute their parsed cells, in order |
| I2cDetect.RowPlusColumnMembers | src/sensor_hub/sensor_registry.py:111-114 | x is reported for a row iff some occupied column `col` has `x == row + col` |
| I2cDetect.HexCellsMembers | src/sensor_hub/sensor_registry.py:260-266 | x is reported iff some occupied cell parses as hex to x |
| I2cDetect.PlaceholderRowsYieldNothing | src/sensor_hub/sensor_registry.py:111-114 | a row of only `--`/`UU` yields nothing under either parser |
| I2cDetect.Placeholders | src/sensor_hub/sensor_registry.py:111-114 | leading placeholders add nothing and shift the BME280 column count |
| I2cDetect.ParsersAgreeOnAlignedRow | src/sensor_hub/sensor_registry.py:109-114 | when each occupied cell shows its own address, both parsers report the same addresses |
| I2cDetect.FirstRowShifts | src/sensor_hub/sensor_registry.py:109-114 | a device at 0x08 in the `00:` row (0x00-0x02 blank) is 0x05 to the BME280 parser and 0x08 to the LTR329 parser |
| I2cDetect.HeaderIgnoredByBme | src/sensor_hub/sensor_registry.py:101 | the first line never influences the BME280 parser's result |
| I2cDetect.HeaderIgnoredByLtr | src/sensor_hub/sensor_registry.py:254 | the first line never influences the LTR329 parser's result |
| I2cDetect.HeaderOnly | src/sensor_hub/sensor_registry.py:101-107 | output of a single line yields no addresses |
| PyText.Split | src/sensor_hub/sensor_registry.py:105 | `split()` gives non-empty words without whitespace |
| PyText.SplitKeepsText | src/sensor_hub/sensor_registry.py:105 | `split()` drops the whitespace and nothing else: the words, run together, are the line's non-whitespace characters in order |
| PyText.SplitJoined | src/sensor_hub/sensor_registry.py:105 | splitting non-empty whitespace-free words joined by single spaces gives exactly those words back, so each field is a maximal run |
| PyText.JoinSplitOn | src/sensor_hub/sensor_registry.py:101 | `split('\n')` loses nothing: joining the parts again gives the text back |
| PyText.PlaceholdersDoNotParse | src/sensor_hub/sensor_registry.py:261-266 | `--` and `UU` are not hex numbers |
| PyText.SplitOn | src/sensor_hub/sensor_registry.py:101 | `split('\n')` gives at least one part, none containing a newline |
| PyText.ParseHex | src/sensor_hub/sensor_registry.py:109 | `int('', 16)` raises |
| PyText.Hex2 | src/sensor_hub/sensor_registry.py:137 | `02x` renders a byte as exactly two characters |
| PyText.Decimal | src/sensor_hub/sensor_registry.py:206 | a channel number below 10 renders as its single digit |
| PyText.Lower | src/sensor_hub/sensor_registry.py:27 | `lower()` keeps the length and lower-cases each ASCII letter in place |
| PyText.HexValueOfHex | src/sensor_hub/sensor_registry.py:206 | the hex rendering of n reads back as n |
| PyText.Hex2RoundTrip | src/sensor_hub/sensor_registry.py:137 | an address formatted with `02x` parses back to itself |
| PyText.Hex2Injective | src/sensor_hub/sensor_registry.py:206 | distinct addresses get distinct `02x` renderings |
| PyText.LowerIdempotent | src/sensor_hub/sensor_registry.py:27 | lower-casing a lower-cased key changes nothing |
| Topology.DisableAllMultiplexers | src/sensor_hub/sensor_registry.py:152-167 | the trace grows by a 0x00 write to each detected 0x70-0x77 address (when the bus opens), answers ignored |
| Topology.VerifyPca9548 | src/sensor_hub/sensor_registry.py:169-182 | writes 0x01 then 0x00, stopping at the first failure; true iff both complete |
| Topology.ScanBmeChannel | src/sensor_hub/sensor_registry.py:196-225 | one channel: the `1 << ch` select, then probes of 0x76 and 0x77 when it succeeds, one descriptor per answer |
| Topology.ScanPca9548Channels | src/sensor_hub/sensor_registry.py:184-234 | channels 0-7 in order, then the reset write, as the specification function gives them |
| Topology.ScanVerifiedMuxes | src/sensor_hub/sensor_registry.py:121-130 | each detected 0x70-0x77 address verified, and scanned only if verified |
| Topology.CollectDirectBmes | src/sensor_hub/sensor_registry.py:132-145 | one direct descriptor per detected 0x76/0x77 that is not a verified mux |
| Topology.DiscoverBme280 | src/sensor_hub/sensor_registry.py:90-150 | the whole routine: i2cdetect outcome, disable, verify and scan, then direct sensors; result and trace as specified |
| Topology.ProbeLtrDirect | src/sensor_hub/sensor_registry.py:272-301 | each detected 0x29 has its part ID read; reported when it is 0xA0 |
| Topology.ScanLtrChannel | src/sensor_hub/sensor_registry.py:317-349 | one channel: select, then part-ID read of 0x29 |
| Topology.ScanLtrMux | src/sensor_hub/sensor_registry.py:312-356 | channels 0-7 then the reset write for one multiplexer |
| Topology.ScanLtrCandidate | src/sensor_hub/sensor_registry.py:308-356 | a detected address is scanned iff it lies in 0x70-0x77, with no verification |
| Topology.ScanAllMuxesForLtr | src/sensor_hub/sensor_registry.py:303-356 | the multiplexer loop over all detected addresses in order |
| Topology.ScanNextLtrMux | src/sensor_hub/sensor_registry.py:308-356 | one loop turn moves its candidate's traffic from the remaining loop to the bus history |
| Topology.DiscoverLtr329 | src/sensor_hub/sensor_registry.py:236-363 | the whole routine: nothing without `smbus2` or on a failed i2cdetect; direct probes, then every mux address |
| Topology.ChannelMasks | src/sensor_hub/sensor_registry.py:195-198 | the select bytes are 1, 2, 4, ..., 128 |
| Topology.BmeChannelsWrites | src/sensor_hub/sensor_registry.py:195-198 | the writes to the mux from channel `ch` on are exactly the masks `1 << ch` .. `1 << 7` |
| Topology.ScanMuxWrites | src/sensor_hub/sensor_registry.py:195-229 | whatever the devices answer, the mux receives 1, 2, ..., 128 then 0, and the 0 is the last transaction |
| Topology.LtrChannelsWrites | src/sensor_hub/sensor_registry.py:316-319 | the LTR329 channel loop writes the same masks in order |
| Topology.LtrScansUnverified | src/sensor_hub/sensor_registry.py:308-353 | every detected 0x70-0x77 address gets all eight selects and the reset, even when all fail |
| Topology.BmeSkipsUnverified | src/sensor_hub/sensor_registry.py:122-130 | a candidate whose 0x01 write fails is neither a mux nor scanned; only that write is issued |
| Topology.MuxResetsMembers | src/sensor_hub/sensor_registry.py:158-164 | the disable writes are exactly a 0x00 to each detected 0x70-0x77 address |
| Topology.DisableComesFirst | src/sensor_hub/sensor_registry.py:116-117 | the disable writes precede all verification traffic |
| Topology.VerifiedMuxIff | src/sensor_hub/sensor_registry.py:122-127 | with writes judged by address and byte, an address is a verified mux iff detected, in 0x70-0x77, the bus opens, and both writes succeed |
| Topology.VerifiedMuxesDetected | src/sensor_hub/sensor_registry.py:123-127 | a verified mux is always a detected 0x70-0x77 address |
| Topology.DirectBme280Injective | src/sensor_hub/sensor_registry.py:136-145 | distinct addresses give distinct direct descriptors |
| Topology.DirectBmesMembers | src/sensor_hub/sensor_registry.py:133-145 | a direct descriptor is produced iff its address is a detected 0x76/0x77 and not a verified mux |
| Topology.BmeChannelsFind | src/sensor_hub/sensor_registry.py:195-222 | with a mux-aware oracle, the scan from `ch` finds exactly the expected devices |
| Topology.BmeChannelFinds | src/sensor_hub/sensor_registry.py:196-222 | one channel finds the present BME280 addresses when its select succeeds, nothing otherwise |
| Topology.ScanMuxFinds | src/sensor_hub/sensor_registry.py:184-234 | descriptors come in channel order, one per present address on each selectable channel; a failing channel does not stop later ones |
| Topology.ChannelThreeScenario | src/sensor_hub/sensor_registry.py:184-234 | a BME280 at 0x76 behind channel 3 of a mux at 0x70 yields exactly that one descriptor |
| Topology.MuxBme280Fields | src/sensor_hub/sensor_registry.py:206-218 | the id is `bme280_{mux:02x}_{ch}_{addr:02x}` and config holds address, bus 1, mux address and channel |
| Topology.BmeMuxIdInjective | src/sensor_hub/sensor_registry.py:206 | the multiplexed BME280 id determines mux, channel and address |
| Topology.LtrMuxIdInjective | src/sensor_hub/sensor_registry.py:329 | the multiplexed LTR329 id determines mux, channel and address |
| Topology.IdsDisjoint | src/sensor_hub/sensor_registry.py:287 | for any two address triples, no direct id equals a multiplexed id of either type, and no BME280 id equals an LTR329 id |
| Topology.Bme280DescriptorsShaped | src/sensor_hub/sensor_registry.py:136-145 | every BME280 descriptor has a nested config with a 0x76/0x77 address and bus 1 |
| Topology.Ltr329DescriptorsShaped | src/sensor_hub/sensor_registry.py:286-338 | every LTR329 descriptor lacks `config` and has address 0x29 and bus 1 at top level |
| Topology.LtrScanShaped | src/sensor_hub/sensor_registry.py:275-356 | the direct and multiplexer parts of the LTR329 routine both give LTR329-shaped descriptors |
| Topology.LtrDirectFinds | src/sensor_hub/sensor_registry.py:275-292 | a direct LTR329 is reported iff 0x29 was detected, the bus opens, and the part ID reads 0xA0; nothing else is reported |
| Topology.LtrChannelFinds | src/sensor_hub/sensor_registry.py:316-349 | behind a multiplexer whose selected channel decides the part ID, one channel yields a descriptor exactly when its select succeeds and the part ID is 0xA0 |
| Topology.LtrChannelsFind | src/sensor_hub/sensor_registry.py:316-349 | channels `ch`..7 yield, in order, exactly the descriptors of the channels that qualify, whatever the history |
| Topology.LtrMuxFinds | src/sensor_hub/sensor_registry.py:308-352 | a detected multiplexer address is scanned without verification and yields exactly the qualifying channels' descriptors, in channel order |
| Store.Rows | src/sensor_hub/discovery_service.py:226 | one row per id of the `sensors` table, in table order |
| Store.Put | src/sensor_hub/discovery_service.py:107-114 | the session's row for the id replaced or added, everything else and the committed state unchanged |
| Store.AddReading | src/sensor_hub/cli.py:155-167 | exactly one reading appended to the session |
| Store.Commit | data_collector.py:133-140 | success iff the n-th commit reaches the database and the session keeps the schema; on success the session becomes the committed state, on failure the session falls back to the committed state |
| Store.PutStorable | src/sensor_hub/models/__init__.py:69 | writing a row with a name keeps the session storable |
| Store.AddStorable | src/sensor_hub/models/__init__.py:35 | adding a reading whose `data` serialises keeps the session storable |
| Store.UnserialisableBlocksCommit | src/sensor_hub/models/__init__.py:35 | a session holding a reading whose `data` cannot be serialised never commits, and falls back to the committed state |
| Store.Rollback | data_collector.py:137-138 | the session returns to the committed state |
| Store.Kept | src/sensor_hub/discovery_service.py:213-216 | an attribute change reaches the session only for a row the session holds |
| Store.Database.constructor | src/sensor_hub/discovery_service.py:17-18 | session and committed state both the initial tables, no commits |
| Store.Database.Save | src/sensor_hub/discovery_service.py:107-114 | the state after `Put` |
| Store.Database.Add | src/sensor_hub/discovery_service.py:147 | the state after `AddReading` |
| Store.Database.CommitSession | src/sensor_hub/discovery_service.py:148 | the state and outcome `Commit` gives |
| Store.Database.RollbackSession | data_collector.py:137-138 | the state after `Rollback` |
| Topology.FailedScanFindsNothing | src/sensor_hub/sensor_registry.py:249-251 | a failed or unreachable i2cdetect makes both routines return nothing and touch no device |
| Registry.Lookup | src/sensor_hub/sensor_registry.py:35-37 | found iff the lower-cased type is a key, and then its entry |
| Registry.LookupCaseInsensitive | src/sensor_hub/sensor_registry.py:37 | every spelling of a type finds the same entry |
| Registry.LookupAfterRegister | src/sensor_hub/sensor_registry.py:27 | after registering `t`, every spelling of `t` finds the new class and other types are unaffected |
| Registry.Create | src/sensor_hub/sensor_registry.py:43-54 | an instance iff the type is known and the constructor returns; `None` otherwise, never an exception |
| Registry.BuiltinTypes | src/sensor_hub/sensor_registry.py:56-72 | bme280 always registered, ltr329 iff its module imports, mpu6050 never |
| Registry.MpuNeverBuiltin | src/sensor_hub/sensor_registry.py:56-72 | no spelling of mpu6050 finds a class or a handler in a fresh registry |
| Registry.SensorRegistry.constructor | src/sensor_hub/sensor_registry.py:17-20 | both tables hold exactly the built-in registrations |
| Registry.SensorRegistry.RegisterSensor | src/sensor_hub/sensor_registry.py:22-28 | `ValueError` iff the class does not derive from `SensorInterface`, table unchanged then; otherwise stored under the lower-cased key |
| Registry.SensorRegistry.RegisterDiscoveryHandler | src/sensor_hub/sensor_registry.py:30-33 | the handler stored under the lower-cased key, class table untouched |
| Registry.SensorRegistry.GetSensorClass | src/sensor_hub/sensor_registry.py:35-37 | the case-insensitive lookup |
| Registry.SensorRegistry.GetAvailableTypes | src/sensor_hub/sensor_registry.py:39-41 | exactly the lower-case types that have a class, each once |
| Registry.SensorRegistry.CreateSensor | src/sensor_hub/sensor_registry.py:43-54 | `create_sensor` as `Create` describes it |
| Registry.SensorRegistry.DiscoverSensors | src/sensor_hub/sensor_registry.py:74-88 | handler results in registration order, each tagged with its type, a raising handler contributing nothing further |
| Registry.CallHandler | src/sensor_hub/sensor_registry.py:80 | one handler call: its result and its bus traffic |
| Registry.TagResults | src/sensor_hub/sensor_registry.py:81-83 | each returned dict gets `sensor_type`; a non-dict item ends the handler's contribution |
| Registry.TaggedPrefix | src/sensor_hub/sensor_registry.py:81-83 | the tagged results are the longest all-dict prefix, each tagged |
| Registry.DiscoveredTagged | src/sensor_hub/sensor_registry.py:78-83 | every discovered dict names one of the registered handler types |
| Registry.DiscoveredAppend | src/sensor_hub/sensor_registry.py:78-86 | results for `a + b` are those for `a` followed by those for `b` |
| Registry.ExternalFailureRaises | src/sensor_hub/sensor_registry.py:84-85 | an external handler that raises issues no traffic and returns nothing |
| Registry.FailingHandlerIsolated | src/sensor_hub/sensor_registry.py:78-86 | results with a raising handler equal the results of the run without it |
| Discovery.MuxConfig | src/sensor_hub/discovery_service.py:126-131 | exactly the present `mux_address`/`mux_channel` keys, with their values |
| Discovery.NewRecord | src/sensor_hub/discovery_service.py:133-145 | a new row: `enabled = auto_enable`, status unknown, name defaulting to the id, bus number defaulting to 1, calibration data only with mux keys |
| Discovery.RegisterStep | src/sensor_hub/discovery_service.py:70-154 | `_register_sensor` keeps the session consistent and never yields the `error` action itself |
| Discovery.UpdateStep | src/sensor_hub/discovery_service.py:77-120 | the session stays well-formed; `RegisterAgainSkips` and `MuxFieldsNotCompared` state its outcomes |
| Discovery.CreateStep | src/sensor_hub/discovery_service.py:122-154 | the session stays well-formed; `CreateRegisters` and `CreatedRow` state its outcome |
| Discovery.OutcomeOf | src/sensor_hub/discovery_service.py:43-61 | the entry names the descriptor's id (or `unknown`) and is `error` iff registering raised |
| Discovery.Reconcile | src/sensor_hub/discovery_service.py:43-61 | the session stays well-formed; `ReconcileAligned`, `ReconcileCountsAddUp` and `ReconcileLocal` state its results |
| Discovery.SensorDiscoveryService.constructor | src/sensor_hub/discovery_service.py:17-18 | no discovery yet |
| Discovery.SensorDiscoveryService.DiscoverAndRegister | src/sensor_hub/discovery_service.py:20-68 | discovery on the bus, then the reconciliation pass; the report and session as `Reconcile` gives them; `last_discovery` stamped |
| Discovery.SensorDiscoveryService.RegisterAll | src/sensor_hub/discovery_service.py:43-61 | one entry per descriptor in order, counters equal to the tally of the entries |
| Discovery.SensorDiscoveryService.Increment | src/sensor_hub/discovery_service.py:48-53 | the counter the entry's action names goes up by one, the others stay |
| Discovery.SensorDiscoveryService.Tick | src/sensor_hub/discovery_service.py:240-245 | the counter the connectivity dict falls under goes up by one, the others stay |
| Discovery.SensorDiscoveryService.RegisterOne | src/sensor_hub/discovery_service.py:44-61 | `_register_sensor` with an exception caught into an `error` entry |
| Discovery.SensorDiscoveryService.RegisterSensor | src/sensor_hub/discovery_service.py:70-154 | looks the id up, then updates or creates as the specification function says |
| Discovery.UpdateSensor | src/sensor_hub/discovery_service.py:77-120 | differing columns overwritten and committed (`updated`), else `skipped` with nothing changed |
| Discovery.Describe | src/sensor_hub/discovery_service.py:79-91 | name, location and description copied; the flag is unset iff all three agreed |
| Discovery.Configure | src/sensor_hub/discovery_service.py:93-105 | address, pin and bus number (default 1) copied; the flag is unset iff all three agreed |
| Discovery.CreateSensor | src/sensor_hub/discovery_service.py:122-154 | the new row added and committed, or nothing kept on a failed commit |
| Discovery.TallyCounts | src/sensor_hub/discovery_service.py:48-53 | each counter equals the number of entries with its action |
| Discovery.CountsPartition | src/sensor_hub/discovery_service.py:48-61 | registered + updated + skipped + error entries equals the number of entries |
| Discovery.ReconcileAligned | src/sensor_hub/discovery_service.py:43-61 | one entry per descriptor, in order, with its id, `error` exactly when registering raised |
| Discovery.ReconcileCountsAddUp | src/sensor_hub/discovery_service.py:35-61 | `discovered_count` equals the number of entries and the four action counts add up to it |
| Discovery.CreateRegisters | src/sensor_hub/discovery_service.py:122-154 | a new id with a good descriptor and a successful commit is `registered` as `NewRecord` |
| Discovery.RegisterAgainSkips | src/sensor_hub/discovery_service.py:77-120 | idempotence: a descriptor with a `name`, registered once, is `skipped` the second time and changes nothing |
| Discovery.NamelessRegistersThenFails | src/sensor_hub/discovery_service.py:81-83 | without `name`, the row is created with its id as name; the next run writes `name = None`, the commit is refused, the descriptor fails and the first run's row stays |
| Discovery.NullNameRefused | src/sensor_hub/discovery_service.py:133-148 | a new descriptor whose `name` is `None` is refused at the commit, reported as failed, and leaves no row |
| Discovery.KeepAndCommit | src/sensor_hub/discovery_service.py:213-216 | the row is written back and committed, with the commit's outcome |
| Discovery.MuxFieldsNotCompared | src/sensor_hub/discovery_service.py:93-106 | changing the mux fields of a known id's config changes nothing |
| Discovery.Ltr329RowsLoseAddress | src/sensor_hub/discovery_service.py:124-145 | an LTR329 descriptor creates a row with no address, bus 1 and no mux data |
| Discovery.MuxBme280Row | src/sensor_hub/discovery_service.py:124-145 | a multiplexed BME280 row keeps its address and its mux coordinates |
| Discovery.TaggedMuxBme280 | src/sensor_hub/discovery_service.py:124 | the tagged multiplexed BME280 descriptor's config as the reconciler reads it |
| Discovery.CreatedRow | src/sensor_hub/discovery_service.py:139-141 | the hardware columns of a created row come from the config |
| Discovery.ReconcileLocal | src/sensor_hub/discovery_service.py:43-61 | a row no descriptor names is never touched |
| Discovery.SensorDiscoveryService.TestSensorConnectivity | src/sensor_hub/discovery_service.py:156-222 | the session and dict `ConnectivityStep` gives |
| Discovery.SensorDiscoveryService.TestAllSensors | src/sensor_hub/discovery_service.py:224-247 | every row listed at the start tested in order; counters classify each dict |
| Discovery.Keep | src/sensor_hub/discovery_service.py:213-216 | the state after `Kept` |
| Discovery.Recovered | src/sensor_hub/discovery_service.py:213-222 | the `except` branch reports the exception's text with the row committed as `error` and its count one higher, raises the commit error with nothing committed when the commit is refused, and lets the `TypeError` of `None + 1` escape uncommitted when the count is NULL |
| Discovery.Settled | src/sensor_hub/discovery_service.py:204-211 | the session stays well-formed; `ProbeAvailable` and `ProbeUnavailable` state its outcomes |
| Discovery.ConnectivityStep | src/sensor_hub/discovery_service.py:156-222 | the session stays well-formed; the `Probe*` lemmas state every outcome |
| Discovery.Missed | src/sensor_hub/discovery_service.py:200-202 | the session stays well-formed; a silent sensor's status and count as `ProbeUnavailable` states |
| Discovery.SweepOf | src/sensor_hub/discovery_service.py:226-247 | one dict per listed id unless an exception escapes |
| Discovery.Recover | src/sensor_hub/discovery_service.py:213-222 | status `error`, count + 1, committed; reported with the message |
| Discovery.MarkUnavailable | src/sensor_hub/discovery_service.py:200-202 | status `unavailable`, count + 1 |
| Discovery.Settle | src/sensor_hub/discovery_service.py:204-211 | the commit of the new status, or the `except` branch |
| Discovery.ProbeConfig | src/sensor_hub/discovery_service.py:167-178 | address, pin, bus number (1 when falsy) and only the stored mux keys |
| Discovery.Reloaded | src/sensor_hub/discovery_service.py:213-216 | after a failed commit the object reads the session's row when it has one |
| Discovery.ProbeAvailable | src/sensor_hub/discovery_service.py:197-199 | an answering sensor is committed `active` with count 0 |
| Discovery.ProbeUnavailable | src/sensor_hub/discovery_service.py:200-202 | a silent sensor is committed `unavailable` with count + 1 |
| Discovery.ProbeRaises | src/sensor_hub/discovery_service.py:213-222 | a raising probe is committed `error` with count + 1, reported with its message |
| Discovery.ProbeUnreachedKeepsRows | src/sensor_hub/discovery_service.py:158-191 | unknown id or failed creation: `available` False and nothing written or committed |
| Discovery.ProbeNullCountEscapes | src/sensor_hub/discovery_service.py:202 | a NULL count with a silent or raising probe lets `TypeError` escape |
| Discovery.HealthTotal | src/sensor_hub/discovery_service.py:240-245 | every dict falls under exactly one counter |
| Discovery.SweepCountsAddUp | src/sensor_hub/discovery_service.py:226-247 | available + unavailable + error equals `total_sensors` |
| Scheduler.SchedulerConfig | src/sensor_hub/cli.py:98-113 | address, bus number (default 1), poll interval (default 30) and only the present mux/mock calibration keys |
| Scheduler.EnabledAmong | src/sensor_hub/cli.py:85 | exactly the enabled rows, in table order |
| Scheduler.Admitted | src/sensor_hub/cli.py:115-125 | at most one entry, and only for its own id |
| Scheduler.ReadyAmong | src/sensor_hub/cli.py:94-127 | every entry names one of the enabled ids |
| Scheduler.PollOne | src/sensor_hub/cli.py:141-203 | one read changes neither the committed state nor the set of rows |
| Scheduler.PollAll | src/sensor_hub/cli.py:140-203 | a cycle's reads change neither the committed state nor the set of rows |
| Scheduler.CycleOf | src/sensor_hub/cli.py:139-216 | the session stays well-formed; `CycleCommitsOnce` states its commit and wait |
| Scheduler.RunCycles | src/sensor_hub/cli.py:138-216 | one wait per cycle |
| Scheduler.Schedule | src/sensor_hub/cli.py:73-220 | the session stays well-formed; `PolledExactly` and the `Poll*` lemmas state its effect |
| Scheduler.RecordedAll | src/sensor_hub/cli.py:140-167 | at most one reading per polled sensor |
| Scheduler.StartScheduler | src/sensor_hub/cli.py:73-220 | the whole command, stopped after a number of cycles, as `Schedule` gives it |
| Scheduler.Instantiate | src/sensor_hub/cli.py:94-127 | the kept sensors are those whose object exists and answers at startup |
| Scheduler.PollCycle | src/sensor_hub/cli.py:139-216 | every kept sensor read, one commit, then the wait |
| Scheduler.PollSensor | src/sensor_hub/cli.py:141-203 | one sensor's read applied to the session |
| Scheduler.StoreReading | src/sensor_hub/cli.py:155-193 | the reading added and the row refreshed |
| Scheduler.Penalize | src/sensor_hub/cli.py:199-203 | the row's count becomes (count or 0) + 1 and status `error`; a missing row changes nothing |
| Scheduler.PolledExactly | src/sensor_hub/cli.py:85-131 | a sensor is polled iff its row is enabled, the registry makes an object and it answers at startup |
| Scheduler.ReadyMembers | src/sensor_hub/cli.py:95-127 | the same, for the instantiation loop |
| Scheduler.ReadyFromRows | src/sensor_hub/cli.py:115-121 | each polled object is the one made from its own row's config and answered at startup |
| Scheduler.ReadyIsDistinct | src/sensor_hub/cli.py:121 | polled ids are distinct |
| Scheduler.ReadRaises | src/sensor_hub/cli.py:195-203 | a raising read adds no reading; count + 1, status `error` |
| Scheduler.ReadStored | src/sensor_hub/cli.py:145-175 | a truthy dict adds one reading with the payload and sets `active`, count 0 and the read time |
| Scheduler.EmptyReadIgnored | src/sensor_hub/cli.py:145 | an empty dict changes nothing |
| Scheduler.DisplayFailureAfterStore | src/sensor_hub/cli.py:177-203 | a payload that fails to print keeps the reading but ends with count 1 and `error` |
| Scheduler.ErrorDictCountsAsActive | src/sensor_hub/cli.py:145-175 | a driver's error dict is stored as an `active` reading with an empty payload |
| Scheduler.PollOneLocal | src/sensor_hub/cli.py:141-203 | one poll changes only its own row |
| Scheduler.PollAllRow | src/sensor_hub/cli.py:140-203 | isolation: after a cycle, each row is what its own read makes of it |
| Scheduler.PollAllOthers | src/sensor_hub/cli.py:140-203 | rows that are not polled stay as they were |
| Scheduler.PollAllReadings | src/sensor_hub/cli.py:140-167 | a cycle appends exactly the stored reads' readings, at most one per sensor |
| Scheduler.CycleCommitsOnce | src/sensor_hub/cli.py:205-216 | one commit per cycle; wait 30 after an accepted commit (all durable), 5 after a failed one (all lost) |
| Scheduler.PollOneStorable | src/sensor_hub/cli.py:140-199 | one read whose payload serialises keeps the session storable |
| Scheduler.PollAllStorable | src/sensor_hub/cli.py:139-199 | a cycle whose payloads all serialise keeps the session storable |
| Scheduler.SerialisableCycleCommits | src/sensor_hub/cli.py:205-216 | when every payload serialises, the wait is 30 exactly when the database is reached |
| Collector.CollectConfig | data_collector.py:41-43 | `{'i2c_address': ...}` overlaid with non-empty calibration data |
| Collector.MotionData | data_collector.py:80-86 | the seven motion fields of an MPU6050 reading |
| Collector.CollectOne | data_collector.py:39-131 | one row's visit keeps the `sensors` table as it was |
| Collector.CollectAll | data_collector.py:31-131 | the loop leaves the `sensors` table and the committed state as they were |
| Collector.Collect | data_collector.py:29-142 | the session stays well-formed; `CountsAddUp` and `FailedCommitRollsBack` state its results |
| Collector.RunRounds | data_collector.py:144-159 | one wait per round |
| Collector.LastRoundWait | data_collector.py:149-159 | a round keeps the earlier waits and appends the interval when its commit is accepted and `time.sleep` accepts the interval, else 5 |
| Collector.RefusedIntervalWaitsFive | data_collector.py:149-159 | with an interval `time.sleep` refuses (negative, or beyond its 64-bit nanosecond range), every round waits 5 s |
| Collector.CommittedIffAccepted | data_collector.py:133-142 | `collect_sensor_data` returns its results exactly when the commit is accepted |
| Collector.EntryIds | data_collector.py:94-131 | the ids of the entries, in order |
| Collector.DataCollectionService.constructor | data_collector.py:19-27 | its own registry with the built-in classes; not running |
| Collector.DataCollectionService.CollectSensorData | data_collector.py:29-142 | the loop, then one commit; on failure rolled back and raised |
| Collector.DataCollectionService.CollectRows | data_collector.py:31-131 | every row visited in table order; counters are the tally of the entries |
| Collector.DataCollectionService.CollectRow | data_collector.py:38-131 | one loop turn appends one row's entry and counts it |
| Collector.DataCollectionService.VisitSensor | data_collector.py:39-131 | one row: the reading added and its entry, as `CollectOne` gives them |
| Collector.DataCollectionService.RunContinuous | data_collector.py:144-159 | rounds of collection, waiting the interval, or 5 s when the round or the sleep raised; ends stopped |
| Collector.DataCollectionService.CollectRounds | data_collector.py:147-159 | the `while self.running` loop: its database state and waits are those of `RunRounds` |
| Collector.DataCollectionService.CollectRound | data_collector.py:150-159 | one round, then the interval as its wait, or 5 s when the round or the sleep raised |
| Collector.DataCollectionService.Stop | data_collector.py:161-163 | `running` becomes false |
| Collector.TallyTotal | data_collector.py:94-131 | success + error counts equal the number of entries |
| Collector.CountsAddUp | data_collector.py:94-142 | a committed round's counters add up to its entries |
| Collector.EntriesForKnownRows | data_collector.py:31-49 | exactly the rows of a known type get an entry, in table order, enabled or not |
| Collector.UnknownTypeSkipped | data_collector.py:46-49 | a row without a class adds no entry and no reading |
| Collector.Mpu6050AlwaysSkipped | data_collector.py:46-49 | every MPU6050 row is skipped |
| Collector.EnabledIgnored | data_collector.py:31 | `enabled` does not influence a visit |
| Collector.ReadOutcome | data_collector.py:54-131 | success iff truthy with no `error` (one `active` reading); else one `error` reading; an exception adds none |
| Collector.ErrorMessages | data_collector.py:103-117 | `error` value, else `Unknown error`; `No data` for an empty result |
| Collector.Bme280Mapping | data_collector.py:63-71 | BME280 fields come from nested `data` only when present; otherwise the raw dict |
| Collector.Ltr329Mapping | data_collector.py:72-76 | light and IR levels mapped |
| Collector.Mpu6050Mapping | data_collector.py:77-86 | temperature mapped and exactly the seven motion fields stored |
| Collector.UpperCaseTypeStoredRaw | data_collector.py:63-89 | a differently-cased type is found but stored raw; with a `datetime` timestamp in the dict, its `data` cannot be serialised |
| Collector.CollectAllAppends | data_collector.py:37-131 | the loop over the rows only appends readings |
| Collector.UnserialisableRoundRaises | data_collector.py:133-140 | a round whose session holds an unserialisable reading raises at the commit and is rolled back |
| Collector.PoisonedSessionRaises | data_collector.py:133-140 | a round starting from a session that holds an unserialisable reading raises and is rolled back |
| Collector.FailedCommitRollsBack | data_collector.py:133-140 | a failed commit returns the session to the committed state and raises |
| Collector.RowsUntouched | data_collector.py:29-142 | no row's status or count changes |
| CollectOnce.OnceRow | collect_data.py:29-94 | one row keeps the `sensors` table as it was |
| CollectOnce.OnceAll | collect_data.py:29-94 | the loop leaves the `sensors` table and the committed state as they were |
| CollectOnce.Once | collect_data.py:16-101 | the session stays well-formed; `CountsAddUp` and `SavedReadings` state its results |
| CollectOnce.CollectOnceRun | collect_data.py:16-101 | the whole script as `Once` gives it |
| CollectOnce.ReadRows | collect_data.py:29-94 | every row read and counted in table order |
| CollectOnce.CountRow | collect_data.py:29-94 | one loop turn bumps exactly one counter |
| CollectOnce.ReadRow | collect_data.py:30-94 | one row: a reading added on success only |
| CollectOnce.CountsCoverRows | collect_data.py:36-94 | success + error equals the number of rows |
| CollectOnce.ReadingsMatchSuccesses | collect_data.py:73-91 | each success adds one reading and nothing else adds any |
| CollectOnce.CountsAddUp | collect_data.py:26-101 | the reported counters add up to the table's rows |
| CollectOnce.UnknownTypeIsError | collect_data.py:36-40 | an unknown type counts as an error and adds nothing |
| CollectOnce.Mpu6050CountedAsError | collect_data.py:36-40 | every MPU6050 row counts as an error |
| CollectOnce.ReadOutcome | collect_data.py:42-94 | a truthy result without `error` adds its extracted reading; anything else adds nothing |
| CollectOnce.ExtractFields | collect_data.py:57-71 | nested `data` gives three fields with light fields empty; otherwise five top-level fields |
| CollectOnce.CalibrationWins | collect_data.py:32-34 | calibration keys override the address |
| CollectOnce.FailedCommitReported | collect_data.py:96-101 | a failed commit is rolled back and reported, not raised |
| CollectOnce.SavedReadings | collect_data.py:96-98 | the run is saved iff the commit is accepted; a saved run makes exactly the successes' readings durable |
| Store.CommitAllOrNothing | data_collector.py:133-140 | a commit makes the session durable or loses all of it |
| Store.Database.Find | src/sensor_hub/discovery_service.py:75 | the session's row for an id, or none |
| Sensors.SensorType | src/sensor_hub/sensors/__init__.py:31-33 | the type is no longer than the class name and has no upper-case letters |
| Sensors.ErrorDict | src/sensor_hub/sensors/__init__.py:56-62 | keys sensor_id, error, status `error`, timestamp None, data {} |
| Sensors.SelectWrite | src/sensor_hub/sensors/bme280.py:60-61 | the select transaction exists iff address and channel are integers and the channel is non-negative |
| Sensors.SensorInterface.constructor | src/sensor_hub/sensors/__init__.py:13-19 | no reading, count 0, status `unknown` |
| Sensors.SensorInterface.GetInfo | src/sensor_hub/sensors/__init__.py:35-44 | the current fields, without changing any |
| Sensors.SensorInterface.ResetErrors | src/sensor_hub/sensors/__init__.py:46-48 | count 0, nothing else changes |
| Sensors.SensorInterface.HandleError | src/sensor_hub/sensors/__init__.py:50-62 | count + 1, status `error`, the error dict |
| Sensors.MockReading | src/sensor_hub/sensors/__init__.py:77-88 | keys sensor_id, timestamp, data (temperature, humidity, pressure), status `active` |
| Sensors.MockSensor.constructor | src/sensor_hub/sensors/__init__.py:68-70 | a fresh sensor whose status is `active` |
| Sensors.MockSensor.Read | src/sensor_hub/sensors/__init__.py:72-90 | the mock dict, kept as the last reading |
| Sensors.MockSensor.IsAvailable | src/sensor_hub/sensors/__init__.py:92-94 | always true |
| Sensors.Bme280SensorType | src/sensor_hub/sensors/__init__.py:31-33 | `BME280Sensor` has type `bme280` |
| Sensors.Ltr329SensorType | src/sensor_hub/sensors/__init__.py:31-33 | `LTR329Sensor` has type `ltr329` |
| Sensors.Mpu6050SensorType | src/sensor_hub/sensors/__init__.py:31-33 | `MPU6050Sensor` has type `mpu6050` |
| Sensors.MockSensorType | src/sensor_hub/sensors/__init__.py:31-33 | `MockSensor` has type `mock` |
| Sensors.TypeOfClass | src/sensor_hub/sensors/__init__.py:31-33 | a class name `XSensor` with no `S` in `X` has type `X` lower-cased |
| Sensors.RemovesSuffix | src/sensor_hub/sensors/__init__.py:33 | a name without `S` loses only a trailing `Sensor` |
| Bme280.SettingsOf | src/sensor_hub/sensors/bme280.py:25-28 | the config keys with defaults 0x77, None, None, 1 |
| Bme280.SelectOps | src/sensor_hub/sensors/bme280.py:56-63 | the select is issued iff the bus is open, the mux address truthy and the channel set |
| Bme280.DewPoint | src/sensor_hub/sensors/bme280.py:120-137 | 0.0 when humidity is not positive |
| Bme280.ReadingDict | src/sensor_hub/sensors/bme280.py:84-97 | the successful read's dict, status `active`, a `datetime` timestamp, with the four data keys |
| Bme280.SelectMuxChannel | src/sensor_hub/sensors/bme280.py:56-63 | issues the select write, ignoring its answer |
| Bme280.TakeSamples | src/sensor_hub/sensors/bme280.py:77-79 | three property reads, stopping at the first failure |
| Bme280.Bme280Sensor.constructor | src/sensor_hub/sensors/bme280.py:23-54 | status and attachment as construction gives them, `error` for a truthy non-integer `mux_address` |
| Bme280.Bme280Sensor.Boot | src/sensor_hub/sensors/bme280.py:32-54 | status, attachment and bus traffic as `Bme280Boot` gives them; attached only with an integer address; `active` only when `mux_address` is falsy or formats with `02x` |
| Bme280.TextMuxAddressEndsError | src/sensor_hub/sensors/bme280.py:43-51 | a `mux_address` given as text selects no channel, attaches the chip and ends in `error` |
| Bme280.Bme280Sensor.Read | src/sensor_hub/sensors/bme280.py:65-103 | failure: error dict, count + 1, `error`; success: dict kept, `active`, count kept |
| Bme280.Bme280Sensor.Fetch | src/sensor_hub/sensors/bme280.py:67-79 | the bus side of `read` |
| Bme280.Bme280Sensor.IsAvailable | src/sensor_hub/sensors/bme280.py:105-118 | one temperature read; the sensor's fields unchanged |
| Bme280.BootStatus | src/sensor_hub/sensors/bme280.py:32-54 | `unavailable` iff no libraries, `active` iff attached and `mux_address` is falsy or an integer (or formats), else `error` |
| Bme280.BootSelectsOnlyWhenMultiplexed | src/sensor_hub/sensors/bme280.py:35-37 | bus opened and channel selected at construction only when both mux fields are set |
| Bme280.ReadReselects | src/sensor_hub/sensors/bme280.py:72-79 | a multiplexed read selects the channel before its samples |
| Bme280.UnattachedReadFails | src/sensor_hub/sensors/bme280.py:67-68 | without the driver object, read fails without bus traffic |
| Bme280.DryAirDewPoint | src/sensor_hub/sensors/bme280.py:124-125 | a dry reading reports dew point 0.0 |
| Ltr329.SettingsOf | src/sensor_hub/sensors/ltr329.py:31-35 | config keys with defaults 0x29, None, None, 1, False |
| Ltr329.SelectRun | src/sensor_hub/sensors/ltr329.py:77-92 | at most the one select write, which raises on failure |
| Ltr329.LightDict | src/sensor_hub/sensors/ltr329.py:122-130 | the two light levels, measured counts kept as integers, and None for the rest |
| Ltr329.LtrErrorDict | src/sensor_hub/sensors/ltr329.py:199-209 | every quantity None plus `error` |
| Ltr329.SelectMuxChannel | src/sensor_hub/sensors/ltr329.py:77-92 | issues the select write and reports failure |
| Ltr329.SelectIfMultiplexed | src/sensor_hub/sensors/ltr329.py:102-103 | select only when both mux fields are set |
| Ltr329.ReadChannels | src/sensor_hub/sensors/ltr329.py:101-107 | the hardware path: select, then both channels |
| Ltr329.Ltr329Sensor.constructor | src/sensor_hub/sensors/ltr329.py:29-75 | status and attachment as construction gives them |
| Ltr329.Ltr329Sensor.Boot | src/sensor_hub/sensors/ltr329.py:44-75 | status, attachment and bus traffic as `Ltr329Boot` gives them |
| Ltr329.Ltr329Sensor.Read | src/sensor_hub/sensors/ltr329.py:94-136 | success: dict kept; failure: count + 1 exactly, status unchanged, driver error dict |
| Ltr329.Ltr329Sensor.IsAvailable | src/sensor_hub/sensors/ltr329.py:181-197 | mock true; no driver false; else the probe; fields unchanged |
| Ltr329.BootStatus | src/sensor_hub/sensors/ltr329.py:44-75 | `mock` iff mock mode or no libraries, `active` iff attached, else `error` |
| Ltr329.SimulatedUnlessActive | src/sensor_hub/sensors/ltr329.py:100-119 | unattached or not `active`: simulated values, no bus traffic |
| Ltr329.ReadSelectsFirst | src/sensor_hub/sensors/ltr329.py:100-107 | the hardware read selects first; a failed select fails the read before any channel read |
| Ltr329.ProbeSelectsFirst | src/sensor_hub/sensors/ltr329.py:187-194 | the probe also selects first |
| Ltr329.MeasuredLightOnly | src/sensor_hub/sensors/ltr329.py:122-130 | a measured reading has both light counts as integers and None elsewhere |
| Mpu6050.SettingsOf | src/sensor_hub/sensors/mpu6050.py:39-42 | config keys with defaults 0x68, None, None, False |
| Mpu6050.Word2cRange | src/sensor_hub/sensors/mpu6050.py:110-114 | a 16-bit word decodes into [-32768, 32767]; `val - 65536` from 0x8000 |
| Mpu6050.Word2cEncodes | src/sensor_hub/sensors/mpu6050.py:110-114 | the word is the decoded value modulo 2^16 |
| Mpu6050.Word2cDecodes | src/sensor_hub/sensors/mpu6050.py:110-114 | every signed 16-bit value is the decode of its own word |
| Mpu6050.Select | src/sensor_hub/sensors/mpu6050.py:99-103 | no traffic unless both mux fields are set |
| Mpu6050.Mpu6050Boot | src/sensor_hub/sensors/mpu6050.py:51-65 | initialised iff no error was caught |
| Mpu6050.MotionDict | src/sensor_hub/sensors/mpu6050.py:142-151 | the seven values and the timestamp |
| Mpu6050.MpuErrorDict | src/sensor_hub/sensors/mpu6050.py:203-215 | every value None, a timestamp and `error` |
| Mpu6050.SelectMuxChannel | src/sensor_hub/sensors/mpu6050.py:99-103 | the select write, its failure raised |
| Mpu6050.WriteChecked | src/sensor_hub/sensors/mpu6050.py:76 | one write, failure raised |
| Mpu6050.InitializeSensor | src/sensor_hub/sensors/mpu6050.py:67-97 | wake-up, WHO_AM_I check, configuration, stopping at the first error |
| Mpu6050.ReadWord2c | src/sensor_hub/sensors/mpu6050.py:105-114 | select, word read, decode |
| Mpu6050.ReadMotion | src/sensor_hub/sensors/mpu6050.py:126-140 | the seven word reads in order |
| Mpu6050.Mpu6050Sensor.constructor | src/sensor_hub/sensors/mpu6050.py:35-65 | a caught error gives status `error` and count 1 |
| Mpu6050.Mpu6050Sensor.Boot | src/sensor_hub/sensors/mpu6050.py:51-65 | initialisation and bus traffic as `Mpu6050Boot` gives them |
| Mpu6050.Mpu6050Sensor.Read | src/sensor_hub/sensors/mpu6050.py:116-166 | simulated: nothing changes; success: `active`, dict kept; failure: count + 1, `error`, error dict |
| Mpu6050.Mpu6050Sensor.Fetch | src/sensor_hub/sensors/mpu6050.py:119-140 | the bus side of `read` |
| Mpu6050.Mpu6050Sensor.IsAvailable | src/sensor_hub/sensors/mpu6050.py:183-201 | mock or no library true; else WHO_AM_I == 0x68; errors false |
| Mpu6050.WrongWhoAmIRejected | src/sensor_hub/sensors/mpu6050.py:80-84 | initialisation succeeds only if WHO_AM_I read 0x68 |
| Mpu6050.SimulatedBootIsQuiet | src/sensor_hub/sensors/mpu6050.py:58-60 | mock mode or no library: initialised, no traffic |
| Mpu6050.SevenWordReads | src/sensor_hub/sensors/mpu6050.py:126-140 | reads at 0x3B, 0x3D, 0x3F, 0x41, 0x43, 0x45, 0x47 in order |
| Mpu6050.WordReadReselects | src/sensor_hub/sensors/mpu6050.py:105-110 | each word read of a multiplexed sensor follows its own select |
| Mpu6050.UninitializedReadFails | src/sensor_hub/sensors/mpu6050.py:122-123 | a non-simulated read before initialisation fails without traffic |
| Mpu6050.MotionInRange | src/sensor_hub/sensors/mpu6050.py:110-114 | every decoded value is a signed 16-bit number |

## Left out

- Real I/O is not modelled. `subprocess.run(['i2cdetect', ...])` becomes a
  `Detect` input: unreachable, or an exit code and stdout. The
  `smbus2`/`busio`/`board`/Adafruit calls become transactions on the bus
  oracle. The time spent in `time.sleep` is not modelled; which delays it
  refuses is. The scheduler and the collector record their waits as
  numbers.
- The database is not modelled as SQLAlchemy. It is a session view plus a
  committed state with all-or-nothing commits.
  - The pending-rollback state after a failed commit in SQLAlchemy is not
    modelled.
  - `database.py` is not part of this model. Of
    `src/sensor_hub/models/__init__.py` the model keeps the column defaults,
    the NOT NULL `name` and the JSON `data` column. It does not check the
    other NOT NULL and type constraints, nor the JSON `calibration_data`.
  - Store.Put: `updated_at`'s `onupdate` (models/__init__.py:89-93) is not
    applied. Scheduler.Refreshed, Scheduler.Penalized, Discovery.Settled and
    Discovery.Recovered leave `updated_at` as it was.
- Floating point and randomness are not modelled:
  - the Magnus dew-point formula;
  - the MPU6050 scaling and temperature conversion;
  - `round(...)`;
  - MockSensor's random values;
  - the LTR329 day/night mock curve.

  These values are `Unmodelled`. Samples that the source rounds to two
  decimals are integers in hundredths (`Centi`).
- `KeyboardInterrupt` is not modelled as an exception. The scheduler loop
  and `run_continuous` run for a given number of cycles or rounds.
- The process-wide singletons (`sensor_registry`, `discovery_service`) are
  not modelled. Neither are `__del__` bus cleanup, logging and console
  output.
- `get_discovery_status` and the non-scheduler CLI commands are not part of
  this model. They only count rows and format output.
- The web layer (`api.py`, `routes.py`, the app factory), `config.py` and
  `logging_config.py` are not part of this model.
- PyText.Lower: only ASCII letters are lower-cased. Python's `str.lower()`
  also lower-cases other letters (`'É'` becomes `'é'`), so a sensor type
  spelled with non-ASCII capitals would match differently. The built-in
  type names are ASCII.
- PyText.ParseHex: only ASCII hex digits are accepted. Python's
  `int(s, 16)` also accepts other Unicode decimal digits. The i2cdetect grid
  is ASCII.
- Values.Truthy: an `Unmodelled` float always counts as true. A computed
  float that is exactly 0.0 would be false in Python.
- Discovery.RegisterStep: a `sensor_id` or `sensor_type` that is not a
  string ends the descriptor with an error here. Python hands such a value
  to SQLAlchemy, whose behaviour is not modelled.
- Discovery.Unchanged: values are compared structurally. Python's `!=`
  treats `1`, `True` and `1.0` as equal, so a descriptor that differs from
  the row only in such a representation counts as changed here.
- Hardware.I2cBus.Transact: one `Fail` reply stands for every exception a
  bus call raises. The discovery routines catch only `OSError`
  (sensor_registry.py:298, 345-349). Any other exception would end the
  routine instead of being skipped.
- Collector.RunRounds: the largest delay `time.sleep` accepts
  (`MaxSleep`, 9223372036 s) is CPython's conversion of whole seconds to a
  signed 64-bit count of nanoseconds; other interpreters are not covered.
- Store.AddReading: SQLAlchemy's autoflush is not modelled. A reading that
  cannot be serialised is refused at the next commit, not at an earlier
  query that flushes the session.
- Bme280.DewPoint: the formula's value is not computed. The contract states
  only the humidity guard, and that the result is either 0.0 or an
  unmodelled float.
- Sensors.SensorType: the contract states only the length bound and that no
  upper-case letter remains. The four lemmas for the built-in class names
  give the exact values.
- Sensors.MockReading: the three data values are random draws and are not
  modelled. The contract states only the keys and the status.
- Registry.DiscoverSensors: the i2cdetect run inside each built-in handler
  is a function of the bus traffic so far (`scan`), not a real subprocess.
- A handler that is neither built-in nor registered with a known outcome
  is not modelled. An external handler is given only by its outcome, and it
  issues no bus traffic.
