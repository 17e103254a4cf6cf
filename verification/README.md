# Verification of the air-quality telemetry system

This project models the three tiers of the system in Dafny and proves properties of the
model: Thingy:52 nodes that flood sensor packets and commands, a mobile node that collects
them, and a base node that filters the readings and sounds an alarm.

`dafny verify dfyconfig.toml` checks everything.

## How the model is built

The firmware updates static tables, rings, queues and flags in place from several threads.
Each such piece is a class whose methods do the same, and each method is proved equal to a
step function on a value that describes the state (`View()`). The runs of the system are
sequences of such steps in any order, and the main results are about all runs.

| file | what it holds |
|---|---|
| `seen_ring.dfy` | the 32-entry overwrite-oldest cache, against the log of accepted keys |
| `packets.dfy`, `names.dfy`, `bytes.dfy` | encoding, the two parsers, node names |
| `thingy_node.dfy`, `mesh.dfy` | one flooding node, and the mesh of any number of them |
| `scan.dfy` | the scan thread and its flag |
| `commands.dfy` | numbering of command broadcasts |
| `tables.dfy` | insertion-ordered tables and what they are worth |
| `mobile_node.dfy` | the mobile node's callback, processing thread and sender thread |
| `node_buffer.dfy`, `kalman.dfy`, `air_quality.dfy`, `alarm.dfy`, `base_node.dfy` | the base node |
| `pipeline.dfy` | mobile node and base node together |

Main results:

- **Flood termination** (`Mesh.FloodTerminatesFromBoot`): with at most 32 sensor keys and 32
  commands in a run, no node accepts a key twice, and once sampling and broadcasting stop at
  most 217 acceptances, dequeues and transmissions per node remain. The bound is tight: two
  nodes and 33 samples suffice to have a packet accepted twice
  (`Mesh.StaleAdvertReaccepted`), because an advertisement stays on air while a neighbour's
  own samples push it out of that neighbour's ring. For any number of keys the exact condition
  is `Mesh.AcceptedOnceIff`: whatever a node comes across again must be among the last 32 keys
  it came across.
- **Integrity** (`Mesh.Integrity`), **conservation** in order (`Mesh.NothingLost`,
  `Mesh.QueuesKeepOrder`) and **mode convergence** (`Mesh.ModesConverge`) over all runs of the
  mesh; and samples and commands do get through, over any distance (`Mesh.SampleCrossesRow`,
  `Mesh.CommandCrossesRow`).
- **Radio flags** (`ScanThreads.RunIsSound`): over every run, with calls that may fail.
- **Exactly-once commands** under 8-bit wrap-around, with the exact condition
  (`Commands.ExactlyOnceIff`).
- **End to end** (`Pipelines.EndToEnd`): each window runs the two filters over the eCO2 and
  TVOC readings of the distinct origins accepted in it, in order of first acceptance, each
  with its last accepted sample, under every interleaving; every accepted sample was on air when it was heard
  (`Pipelines.AcceptedWasHeard`); and over any link a marker that gets through feeds exactly
  what was received since the last one (`Pipelines.AnyWindow`).
- **Names**: over legacy advertising a sniffed name is always that of the sample's origin
  (`Packets.LegacyNamesAreTrue`); with longer advertisements it can be the name of no node,
  and `Packets.SniffedNameIff` says exactly when.
- **Freshness** in true time despite the wrapping clock (`Pipelines.AcceptancesAreFresh`,
  `Pipelines.FilterDecides`) and **capacity** (`Pipelines.NeverTurnsAway`).
- **Kalman filter**: Riccati monotonicity, optimality, the weighted-average form, and when a
  class settles (`AirQualities.Eco2SettlesIff`).
- **Alarm agreement** at every point of a run if and only if no step crosses between poor and
  not poor while the command queue is full, and a run that does (`Alarms.AlwaysAgreesIff`,
  `Alarms.DroppedStop`); and every warning is chirped once (`Alarms.ChirpsAreWarningChanges`).

## Assumptions

- **Record layout.** The two `env_packet.h` headers disagree (9 and 8 bytes of name), which
  gives records of 24 and 20 bytes, so as checked in the base node's size guard drops every
  record (`BaseNodes.HeadersDisagree`). The pipeline is therefore stated for a shared layout
  of `width` bytes; statements by origin need the mobile node's width of 9, because an 8-byte
  field cuts the last digit of three-digit identifiers (`NodeNames.NamesAgree`).
- **Pending slot.** The base node keeps one pending record. The pipeline takes the work item
  to run after each notification; `BaseNodes.SlotIsLosslessIff` says exactly what is lost
  otherwise.
- **Atomic steps.** A handler (receive callback, work item, disconnection, sleep command) is
  one step. Threads are split where they block: sampling, flooding and processing are two
  steps each. The sender's window is one step, under its mutex.
- **Windows.** An acceptance counts for the window in which its record is stored, which can
  be the one after it passed the filter; the sender can run in between.
- **Legacy advertising.** Neither the nodes nor the mobile node use extended advertising, so
  the pipeline takes any advertisement of at most 31 bytes, usable or not.
- **Arithmetic.** The filter is computed over exact reals, the firmware in single precision.
- **Inputs.** Controller results, sensor readings, uptimes and link states are parameters.
- The comment in the README of the repository that the alarm stops when air quality improves
  holds when no stop command is dropped; the code ignores the result of the put.

## Model

| member | source | states |
|---|---|---|
| `SeenRings.SeenRing.Contains` | Thingy52/src/node_helpers.c:309-320 | the search answers membership among the last 32 accepted keys |
| `SeenRings.SeenRing.Add` | Thingy52/src/node_helpers.c:322-333 | the ring then holds the last 32 keys of the longer log, at the wrapped write index |
| `SeenRings.SeenRing.CheckAndAdd` | Thingy52/src/node_helpers.c:335-350 | answers whether the key is remembered, and accepts it if not |
| `SeenRings.AcceptedKeysSpread` | Thingy52/src/node_helpers.c:335-350 | any 33 consecutive accepted keys are pairwise distinct, over runs of any length |
| `SeenRings.SmallUniverseExact` | Thingy52/src/node_helpers.c:335-393 | with at most 32 distinct keys the ring is an exact set: each offered key is accepted exactly once |
| `SeenRings.ExactOnceIff` | Thingy52/src/node_helpers.c:335-350 | no key is accepted twice if and only if each repeated offer comes while its key is among the last 32 offered, and each is then accepted at its first offer |
| `SeenRings.OneKeyTooMany` | Thingy52/src/node_helpers.c:322-350 | after any 33 distinct keys the first is accepted again |
| `NodeNames.NamesAgree` | mobile_node/src/ble.c:163-165 | two origins have the same fixed-width name exactly when their surviving digits agree; at 9 bytes, when they are equal |
| `NodeNames.DecimalReadsBack` | mobile_node/src/ble.c:164-165 | the digits of a name are the decimal digits of the origin, without leading zeros |
| `NodeNames.NameFits` | mobile_node/src/ble.c:164-165 | the whole text of a name fits a 9-byte field and leaves its last byte zero |
| `NodeNames.EightByteCompare` | base_node/src/node_buffer.c:26-27 | 9-byte names stay distinct when only 8 bytes are compared |
| `NodeNames.NodeNameIsNotEow` | base_node/src/nus_central.c:63-64 | no node name carries the end-of-window prefix |
| `Packets.EncodeSensorPacket` | Thingy52/src/node_helpers.c:234-254 | the twelve bytes of the packet, written in place |
| `Packets.EncodeCommandPacket` | Thingy52/src/node_helpers.c:256-264 | the four bytes of a command, and nothing beyond them |
| `Packets.SensorLayout` | Thingy52/src/node_helpers.h:45-53 | which bytes of a sensor packet hold which field, and in which byte order |
| `Packets.CommandLayout` | Thingy52/src/node_helpers.h:56-60 | the four bytes of a command |
| `Packets.SensorRoundTrip` | mobile_node/src/ble.c:159-173 | decoding an encoded sample returns origin, sequence number, signed temperature, humidity, eCO2 and TVOC |
| `Packets.DecodedReencodes` | Thingy52/src/node_helpers.c:245-253 | conversely, sensor data is the encoding of what it decodes to |
| `Packets.ParseFloodAdvert` | Thingy52/src/node_helpers.c:483-515 | finds the packet of the first manufacturer field that carries one |
| `Packets.ParseSnifferAdvert` | mobile_node/src/ble.c:131-177 | reads the last sensor field, whether there is a node name, and whether there is a command |
| `Packets.RelayReadsPacket` | Thingy52/src/node_helpers.c:51-69 | a neighbour recovers, byte for byte, the packet put on air |
| `Packets.MobileReadsPacket` | mobile_node/src/ble.c:131-189 | the mobile node reads a relayed packet as its origin's sample under its origin's name, and ignores relayed commands |
| `Packets.LegacyNamesAreTrue` | mobile_node/src/ble.c:159-189 | a usable advertisement of at most 31 bytes has one sensor field, and is read under the name of that sample's origin |
| `Packets.SniffedNameIff` | mobile_node/src/ble.c:163-165 | with any number of sensor fields, the name is that of the sample read if and only if its origin has two digits or more, or no digit is left over from earlier fields; otherwise it is the name of no node |
| `Packets.AliasedName` | mobile_node/src/ble.c:163-189 | a usable advertisement whose name is the name of no node, which takes more than the 31 bytes of legacy advertising |
| `ThingyNodes.ThingyNode.DeviceFound` | Thingy52/src/node_helpers.c:517-587 | every branch of the receive callback: echo, duplicate, swallowed, queued, dropped, and the mode change |
| `ThingyNodes.ThingyNode.HandleCommand` | Thingy52/src/node_helpers.c:458-476 | the two known commands set the mode, the measure command also resumes the sensors, and others change nothing |
| `ThingyNodes.ThingyNode.SuspendSensors` | Thingy52/src/node_helpers.c:135-150 | the sensors are suspended |
| `ThingyNodes.ThingyNode.ResumeSensors` | Thingy52/src/node_helpers.c:152-168 | the sensors are resumed |
| `ThingyNodes.ThingyNode.SensorThreadWakes` | Thingy52/src/main.c:34-39 | a sample is begun only in normal mode, with the sensors resumed |
| `ThingyNodes.ThingyNode.SensorThreadSamples` | Thingy52/src/main.c:41-70 | next sequence number, sentinels for failed reads, key marked as seen, packet queued or dropped |
| `ThingyNodes.ThingyNode.FloodThreadTakes` | Thingy52/src/main.c:89-97 | takes the oldest packet; discards sensor packets in low power |
| `ThingyNodes.ThingyNode.FloodThreadSends` | Thingy52/src/node_helpers.c:399-434 | starts or updates advertising, which may fail, and keeps the flag equal to the controller's state |
| `ThingyNodes.ThingyNode.StopAdvertisingIfRunning` | Thingy52/src/node_helpers.c:436-452 | stops advertising, which may fail, and keeps the flag equal to the controller's state |
| `ThingyNodes.NoSelfRelay` | Thingy52/src/node_helpers.c:540-542 | whatever is heard, forged or genuine, no packet of the node's own origin is queued |
| `ThingyNodes.HearingSensor` | Thingy52/src/node_helpers.c:540-563 | a new sensor packet is swallowed exactly in low power, relayed behind what is queued in normal mode, and dropped exactly when twelve packets wait; others change nothing |
| `ThingyNodes.HearingCommand` | Thingy52/src/node_helpers.c:565-585 | a new command is relayed in either mode while there is room and obeyed even without: sleep leads to low power, measure to normal mode with the sensors resumed; repeats change nothing |
| `ThingyNodes.ReadingWithSentinels` | Thingy52/src/main.c:41-52 | a sensor that fails is reported by its sentinels, without disturbing the other |
| `ScanThreads.ScanThread.Iterate` | Thingy52/src/main.c:132-187 | one iteration of the scan thread: its calls, its sleeps and what it asks of advertising and sensors, in order, after which the flag equals the controller's state |
| `ScanThreads.RunIsSound` | Thingy52/src/main.c:132-187 | in every run the low-power sleep is entered scanning iff the stop before it failed, the other sleeps scan unless a start failed, a running scan is started again only after a failed stop, and the sleep follows stopping advertising and suspending the sensors |
| `ScanThreads.RoundActions` | Thingy52/src/main.c:137-175 | what an iteration does besides scanning, in order: in low power it stops advertising, suspends the sensors, sleeps, and resumes the sensors exactly when the node was woken |
| `ScanThreads.HealthyScanAlternates` | Thingy52/src/main.c:132-187 | with a controller that never fails, starts and stops alternate and exactly the low-power sleeps are without scan |
| `ScanThreads.ScanOutlastsRoundIff` | Thingy52/src/main.c:157-185 | whether the scan outlasts an iteration, by the modes met and the results of the calls |
| `Mesh.StepKeepsInvariant` | Thingy52/src/node_helpers.c:517-587 | each step of any node keeps every packet in the network genuine, queues within bounds and modes equal to the fold of accepted commands |
| `Mesh.Integrity` | Thingy52/src/node_helpers.c:483-563 | over any run and any number of hops a sensor packet is byte-identical to one its origin encoded, and the mobile node reads exactly that sample |
| `Mesh.SamplesAreOwn` | Thingy52/src/main.c:54-70 | every recorded sample was taken, in some step, by the node it names, under the number that followed that node's last one |
| `Mesh.OwnPacketsAreSampled` | Thingy52/src/node_helpers.c:540-542 | over any run, a packet of its own origin that a node comes to carry is one it sampled itself in that run, also when identifiers are shared |
| `Mesh.NoSelfRelayFromBoot` | Thingy52/src/node_helpers.c:540-542 | the same from boot, for every packet of its own origin that it carries |
| `Mesh.SamplesBeginAwake` | Thingy52/src/main.c:34-56 | each sample of a run was begun in normal mode, since the one before it |
| `Mesh.SampleCrossesRow` | Thingy52/src/main.c:88-107 | in a row of nodes of any length, each hearing only the one before it, a sample of the first is put on air by the last, unaltered |
| `Mesh.CommandCrossesRow` | Thingy52/src/main.c:109-115 | a command heard by the first node of such a row is put on air by the last, which obeys it |
| `Mesh.QueuesKeepOrder` | Thingy52/src/main.c:88-115 | over every run, packets leave a queue in the order in which they entered it, and all but sensor packets in low power are handed to the controller in that order |
| `Mesh.OnAirAfter` | Thingy52/src/node_helpers.c:399-452 | what can be heard from a node is the last packet sent successfully, until a stop succeeds |
| `Mesh.BroadcastsAreNumbered` | mobile_node/src/ble.c:200-218 | broadcasts are numbered one by one modulo 256, and one that cannot start uses up its number |
| `Mesh.ModeIsLastCommand` | Thingy52/src/node_helpers.c:565-585 | in every reachable state a node is in low power iff the last known command it accepted is sleep, also when its queue was full |
| `Mesh.ModesConverge` | Thingy52/src/node_helpers.c:458-476 | once all command packets carry one known command, a node that accepts one is in low power for sleep and in normal mode for measure, and stays so |
| `Mesh.AcceptedAtMostOnce` | Thingy52/src/node_helpers.c:335-350 | with at most 32 sensor keys and 32 commands no node accepts a key twice |
| `Mesh.AcceptedOnceIff` | Thingy52/src/node_helpers.c:335-393 | with any number of keys, a node accepts no key twice if and only if what it comes across again is among the last 32 keys it came across |
| `Mesh.FloodTerminates` | Thingy52/src/main.c:88-116 | without new samples and broadcasts the productive steps still to come are bounded by the remaining work |
| `Mesh.WorkBound` | Thingy52/src/node_helpers.h:41-43 | the remaining work is at most 217 per node |
| `Mesh.FloodTerminatesFromBoot` | Thingy52/src/node_helpers.c:517-587 | the two together, for every run from boot |
| `Mesh.StaleAdvertReaccepted` | Thingy52/src/node_helpers.c:322-333 | 33 samples suffice for a packet to be accepted twice, so 32 is tight in the mesh |
| `Mesh.NothingLost` | Thingy52/src/node_helpers.c:540-563 | at each node, over every run: heard + own = queued + dropped + swallowed, and queued = sent + discarded + still waiting |
| `Commands.Broadcaster.DoBroadcastCommand` | mobile_node/src/ble.c:198-224 | up to three broadcasts under consecutive wrapped numbers; a failed start uses up a number |
| `Commands.ExactlyOnceIff` | Thingy52/src/node_helpers.c:352-393 | a node handles exactly the broadcasts it heard, once each and in order, if and only if no two within 33 share wrapped number and command |
| `Commands.ShortGapsSuffice` | mobile_node/src/ble.c:200-206 | which holds as long as 33 broadcasts heard in a row span fewer than 256 numbers |
| `Commands.SleptThroughACycle` | Thingy52/src/node_helpers.c:352-363 | and fails when a node misses 255 broadcasts between two equal commands |
| `Tables.CollapseIsLastValues` | base_node/src/node_buffer.c:20-43 | the table lists each key once, in order of first appearance, with its last value |
| `Tables.NeverFull` | base_node/src/node_buffer.c:34-40 | distinct keys from a set no larger than the table never meet the full branch |
| `Tables.CollapseRenames` | mobile_node/src/ble.c:109-122 | a table keyed by an injective name is the table keyed by what is named |
| `MobileNodes.MobileNode.SnifferDeviceFound` | mobile_node/src/ble.c:179-196 | usable advertisements are stamped and queued, others and overflow are dropped |
| `MobileNodes.MobileNode.FindOrAllocSeq` | mobile_node/src/ble.c:76-96 | the entry of a name, a new one while there is room, or none |
| `MobileNodes.MobileNode.ProcFilter` | mobile_node/src/ble.c:307-321 | the freshness check and the update of the sequence table |
| `MobileNodes.MobileNode.FindOrAllocNode` | mobile_node/src/ble.c:109-122 | the record of a name, the next free one, or none |
| `MobileNodes.MobileNode.ProcStore` | mobile_node/src/ble.c:323-333 | the record is overwritten in place or appended |
| `MobileNodes.MobileNode.NusSendWindow` | mobile_node/src/ble.c:253-290 | which notifications get through over a link that may be down or fail, the marker, and the cleared table |
| `MobileNodes.DeliveredExactly` | mobile_node/src/ble.c:253-270 | a record gets through iff its send succeeds and the link was not down up to then, in order; a failed one is skipped |
| `NodeBuffers.NodeBuffer.Add` | base_node/src/node_buffer.c:20-43 | overwrite in place, append, or drop when full |
| `NodeBuffers.NodeBuffer.Get` | base_node/src/node_buffer.c:50-56 | the record at an index, or none out of range |
| `NodeBuffers.NodeBuffer.Clear` | base_node/src/node_buffer.c:58-64 | the buffer is empty |
| `NodeBuffers.BufferIsOrderedMap` | base_node/src/node_buffer.c:20-43 | after any additions the buffer is the ordered map of the first eight nodes' events, with their last records |
| `Kalman.KalmanFilter.Update` | base_node/src/kalman.c:17-30 | predict and update in place |
| `Kalman.RiccatiStep` | base_node/src/kalman.c:19-27 | the covariance moves monotonically towards its root and never crosses it |
| `Kalman.EstimateIsWeightedAverage` | base_node/src/kalman.c:24-26 | the estimate is a convex combination of initial value and measurements, with weights independent of both |
| `Kalman.UpdateIsOptimal` | base_node/src/kalman.c:24-27 | each update returns the unique minimiser of the two squared errors over their variances |
| `Kalman.BatchForm` | base_node/src/kalman.c:17-30 | with q = 0 the run is a batch average |
| `Kalman.OrderDoesNotMatter` | base_node/src/kalman.c:17-30 | with q = 0 the same measurements in any order lead to the same filter |
| `Kalman.EstimateIsMonotone` | base_node/src/kalman.c:17-30 | pointwise larger measurements never lower the estimate |
| `Kalman.ErrorShrinks` | base_node/src/kalman.c:17-30 | under a constant input the error shrinks geometrically and keeps its sign |
| `AirQualities.AirQuality.Update` | base_node/src/air_quality.c:50-57 | both filters are updated with their own measurement |
| `AirQualities.AirQuality.GetEco2` | base_node/src/air_quality.c:69-79 | the class of the eCO2 estimate |
| `AirQualities.AirQuality.GetTvoc` | base_node/src/air_quality.c:81-91 | the class of the TVOC estimate |
| `AirQualities.AirQuality.Reset` | base_node/src/air_quality.c:93-98 | both filters are as at boot |
| `AirQualities.FeedRunsFilters` | base_node/src/nus_central.c:69-75 | each filter runs over its own readings of the buffered records, in order |
| `AirQualities.ClassesByThreshold` | base_node/src/air_quality.c:69-91 | eCO2 is poor from 2000 and good below 1000 ppm of its estimate, TVOC from 660 and below 220 ppb |
| `AirQualities.FirstRecord` | base_node/src/air_quality.c:24-48 | where the first record moves the two estimates from boot |
| `AirQualities.Eco2Gain` | base_node/src/air_quality.c:24-26 | for every measurement sequence the eCO2 covariance stays below 5 and the gain rises in [3/8, 1/2) |
| `AirQualities.Eco2SettlesIff` | base_node/src/air_quality.c:69-79 | after 24 records with equal eCO2 readings the eCO2 class is theirs, if and only if they are not at a threshold approached from below |
| `AirQualities.TvocSettlesIff` | base_node/src/air_quality.c:81-91 | the same for TVOC, after 43 records |
| `AirQualities.ClassIsMonotone` | base_node/src/air_quality.c:69-91 | records with larger readings never lead to a better class |
| `Alarms.BuzzerDevice.RunThread` | base_node/src/buzzer.c:32-87 | the nested loops do what consuming the queue command by command does, and the tone is on exactly in the inner loop |
| `Alarms.BuzzerDevice.PutCommand` | base_node/src/buzzer.c:106-122 | a command is queued, or dropped when four are waiting |
| `Alarms.AlwaysAgreesIff` | base_node/src/nus_central.c:84-96 | at every point of a run what is queued leads to the alarm being on iff a recorded class is poor, if and only if no step crosses between poor and not poor while four commands wait |
| `Alarms.AlarmAgrees` | base_node/src/nus_central.c:84-96 | which holds in every run without drops |
| `Alarms.StepAgreesIff` | base_node/src/buzzer.c:106-122 | one step, from agreement or disagreement: what it leads to by whether it has a command to put, whether there is room and whether it crosses |
| `Alarms.CaughtUp` | base_node/src/buzzer.c:41-86 | once the thread has caught up the tone agrees with the recorded classes |
| `Alarms.NoWarningSwallowed` | base_node/src/buzzer.c:65-74 | the inner loop never takes a warning, in any run, even with drops |
| `Alarms.UnswallowedChirps` | base_node/src/buzzer.c:46-57 | every warning is either chirped or swallowed |
| `Alarms.ChirpsAreWarningChanges` | base_node/src/nus_central.c:84-92 | over every run, warnings chirped or queued are one for each change into a state with a warning and nothing poor that found room |
| `Alarms.ChangeWarns` | base_node/src/nus_central.c:87-89 | which changes queue a warning |
| `Alarms.SilenceForgets` | base_node/src/nus_central.c:462-464 | after a silencing any classes but two good ones are announced anew |
| `Alarms.DroppedStop` | base_node/src/buzzer.c:118-122 | a run in which a stop is dropped leaves the alarm on with both classes good |
| `BaseNodes.BaseNode.NotifyFunc` | base_node/src/nus_central.c:119-140 | the size guard, and the single slot that is overwritten |
| `BaseNodes.BaseNode.NotifyWork` | base_node/src/nus_central.c:58-106 | buffers a record; at a marker feeds the buffer to the filters, announces the classes and clears |
| `BaseNodes.BaseNode.UpdateFilters` | base_node/src/nus_central.c:69-75 | one update per buffered record, in order |
| `BaseNodes.BaseNode.AnnounceClasses` | base_node/src/nus_central.c:81-96 | the commands of a class change and the recorded classes |
| `BaseNodes.BaseNode.ResetClassification` | base_node/src/nus_central.c:49-53 | both recorded classes are good |
| `BaseNodes.BaseNode.OnDisconnected` | base_node/src/nus_central.c:462-464 | a stop is queued and the classes are forgotten, the filters are not |
| `BaseNodes.BaseNode.CmdSleep` | base_node/src/main.c:46-62 | when the command could be sent: stop, fresh filters, forgotten classes; otherwise nothing |
| `BaseNodes.EowIsChange` | base_node/src/nus_central.c:62-101 | a marker is a class change of the alarm machine and leaves the recorded classes equal to the filters' |
| `BaseNodes.SleepStartsOver` | base_node/src/main.c:57-60 | after a sent sleep command the filters are as on a node just booted, whatever follows; a disconnection leaves them as they are |
| `BaseNodes.HeadersDisagree` | base_node/src/nus_central.c:129-133 | as checked in, sent records have 24 bytes and expected ones 20 |
| `BaseNodes.LayoutsAgreeIff` | base_node/src/nus_central.c:129-137 | a record passes the size guard if and only if sender and receiver place its readings at the same offset |
| `BaseNodes.SlotIsLosslessIff` | base_node/src/nus_central.c:135-137 | the last notification before each work item is processed; all are if and only if the work item runs between any two |
| `Pipelines.AcceptancesAreFresh` | mobile_node/src/ble.c:98-107 | successive acceptances of a node grow in sequence number or are more than 30 s of true time apart |
| `Pipelines.FilterDecides` | mobile_node/src/ble.c:98-107 | exactly when an advertisement passes, in true time |
| `Pipelines.SilentNodeReturns` | mobile_node/src/ble.c:102-104 | a node silent for more than 30 s and less than 2^32 ms is accepted at once |
| `Pipelines.NeverTurnsAway` | base_node/src/node_buffer.c:34-40 | neither the record table nor the base buffer ever meets its full branch, even when markers are lost |
| `Pipelines.HearQueues` | mobile_node/src/ble.c:179-196 | a usable advertisement is queued exactly while fewer than 32 wait, and anything else changes nothing |
| `Pipelines.MeshSampleCarried` | mobile_node/src/ble.c:131-177 | what a mesh node has on air is an advertisement the pipeline can hear, carrying the sample in its packet |
| `Pipelines.AcceptedWasHeard` | mobile_node/src/ble.c:179-196 | each accepted sample was on air in a step of the run, at the time recorded for it |
| `Pipelines.AnyWindow` | base_node/src/nus_central.c:58-106 | over any link, a marker that gets through runs each filter once over its reading of every node received since the last such marker, with its last record; otherwise the records wait |
| `Pipelines.EndToEnd` | base_node/src/nus_central.c:62-101 | each window runs each filter over its own readings of the distinct origins accepted and stored in it, in order of first acceptance, each with its last accepted sample |

## Left out

- Zephyr itself: scanning, advertising, GATT, power management, PWM, watchdog, logging, shell and JSON output; only the results of calls and the order of queues are modelled.
- The effect of the scan thread on reception: in the mesh a packet can be heard at any time, which includes what the scan thread allows.
- GATT discovery, data length updates and connection reference counting: they depend on stack behaviour that is not part of this model.
- Timing: no claim that queues do not overfill or how long they take to drain; drops are counted or assumed absent where stated.
- Single-precision rounding in the Kalman filter and the integer casts of the JSON output.
- Races inside sensor suspension and resumption, torn copies of the pending record, and a sleep command in the middle of the work item.
- Conversion of driver values into readings, and printing.
- `OTA_GUI.py`, the dashboard and the contract in the repository's README.
- ThingyNodes.ThingyNode.HandleCommand: does not model the two-second wait for the sensors, nor the sensor drivers' own state, whose results the firmware ignores.
- Mesh.ModesConverge: does not claim that the latest command issued wins; a late relay of an older command can be accepted after a newer one.
- Pipelines.EndToEnd: assumes a working link and the shared 9-byte layout, because a record lost on the link is lost for good; AnyWindow says what a window does over any link.
