# Interlin-q: circuit IR, distributed compiler, scheduler and node bookkeeping

Interlin-q simulates distributed quantum computing. A controller host takes
a monolithic circuit and compiles it to run on several computing hosts
(QPUs). The compiler replaces every controlled gate whose two qubits sit on
different hosts with a teleportation block. It then stamps every operation
with the clock tick its layer starts at and sends each host the operations
it executes. The computing hosts keep track of their qubits and classical
bits and run the operations stored under each clock tick.

This project models that pipeline in Dafny and proves properties of it:

- **Circuit IR** (`Constants`, `OperationTime`, `Operations`, `Layers`,
  `Circuits`, `ControlGates`, `QubitBuilder`). It covers:
  - kind validation and the default timing table;
  - the operation accessors and the dictionary form;
  - list edits on a layer;
  - building layers from the qubits' per-layer maps;
  - the backward run-merging scan `control_gate_info`, including Python's
    delete-while-enumerating semantics;
  - the qubit-centric layer-tracking builder.
- **Distributed compiler** (`Compiler`). Every run of cross-node controlled
  gates becomes one SEND_ENT/REC_ENT pair in the current layer and a
  teleportation block of `8 + longest run` layers. Fresh uuid4 identifiers
  come from a counter (`Compiler.FreshId`).
- **Scheduler** (`Controller`): the duration lookup, the running layer-end
  tick and the split of the schedule by executing host.
- **Node bookkeeping** (`ComputingHosts`). It covers:
  - schedule grouping by tick and operand validation;
  - the qubit stores, with the pre-allocated pool counter and the capacity
    check;
  - classical-bit gating and measurement accounting;
  - per-tick dispatch and the result message.

  The state is a `NodeState` value, and each handler is a step function
  over it. The class `ComputingHost` has one method per handler, and each
  method's `ensures` ties its new state to the step function. Qubit handles,
  measurement outcomes, EPR arrivals and received bits are `Backend` inputs.
  Gate applications and transport sends are recorded as an opaque `Call`
  log.
- **Greedy VQE scheduler** (`GreedyScheduler`). This is the bin-packing
  scheduler of the VQE example. States of `oracleSize` qubits are placed,
  round by round, on the QPUs with the most free qubits, either split
  across QPUs or on one QPU. A state is placed by the greedy fill: the
  slots, sorted by free qubits, give all they have in order until the
  state is complete. `Drained` is the list this leaves and `Greedy` the
  distribution it takes; the in-place loop is proved to compute both.
  `GreedyRound` folds the step `RoundStep` over the states of one round.
  `Scheduled` is the whole recursive schedule written into the old map.
  The round loop and the schedule method are proved to compute these.

Python exceptions are modelled as values:
- `Result`/`Option` for the pure parts;
- a `Crashed` outcome for a handler whose exception escapes, after which
  the tick's remaining operations do not run and the clock gets no response.

## Model

| member | source | states |
|---|---|---|
| Constants.OperationNamesAsWritten | interlinq/utils/constants.py:3-16 | the literal list evaluates to 11 strings; the fused "THREE_QUBITCLASSICAL_CTRL_GATE" is a member, while THREE_QUBIT and CLASSICAL_CTRL_GATE are not |
| Constants.IntendedNamesDiffer | interlinq/utils/constants.py:3-36 | a name is on the intended 12-name list iff it is on the literal list or is THREE_QUBIT or CLASSICAL_CTRL_GATE, and is not the fused string |
| Constants.KindNamesSpellThemselves | interlinq/utils/constants.py:18-36 | every kind constant equals the string of its own identifier |
| Constants.KindNamesDistinct | interlinq/utils/constants.py:18-36 | the twelve kind constants are pairwise distinct, so dispatching on a name selects one kind |
| OperationTime.DefaultTimesAreOne | interlinq/utils/constants.py:40-41 | the default single-gate time and single-operation time are both 1 |
| OperationTime.GateTablesCoverTheirGates | build/lib/interlinq/utils/default_operation_time.py:6-25 | a gate has an entry in the single-qubit table iff it is one of the 11 single-qubit gate names (likewise the 4 two-qubit names), and every entry is the default gate time |
| OperationTime.ClassicalControlTableIsUnion | build/lib/interlinq/utils/default_operation_time.py:27-34 | the CLASSICAL_CTRL_GATE entry is the merged table, which times exactly the single- and two-qubit gates, each at the default time |
| OperationTime.DefaultOperationTimeShape | build/lib/interlinq/utils/default_operation_time.py:30-40 | the default table has entries exactly for the nine dispatched kinds; PREPARE_QUBITS, MEASURE and the four transfer kinds are scalar, while SINGLE, TWO_QUBIT and CLASSICAL_CTRL_GATE are per-gate tables; THREE_QUBIT, REC_HAMILTON and SEND_EXP have none |
| Operations.NewOperationAsWritten | interlinq/objects/operation.py:46-55 | construction checks the literal name list: it fails with InputError("Operation is invalid") iff the name is not on it, and otherwise stores every argument unchanged |
| Operations.NewOperation | interlinq/objects/operation.py:46-55 | the same constructor checking the intended name list: it fails with InputError iff the name is not a kind constant, and otherwise stores every argument unchanged |
| Operations.ClassicalCtrlGateRejectedAsWritten | interlinq/objects/operation.py:46-47 | as written, CLASSICAL_CTRL_GATE and THREE_QUBIT operations are rejected whatever their other arguments; with the intended list both are accepted |
| Operations.Item | interlinq/objects/operation.py:123-148 | reading element k of an optional list succeeds iff the list is present and longer than k; a missing list is a TypeError |
| Operations.GettersRequireTwoQubit | interlinq/objects/operation.py:115-175 | on any kind other than TWO_QUBIT, each of the four control/target getters raises ValueError, and the operation is not a cross-node control gate |
| Operations.TwoQubitGetters | interlinq/objects/operation.py:115-175 | for TWO_QUBIT: the control qubit is qids[0] and the target qubit is qids[1]; the control host is hosts[0]; the target host is hosts[1] when there are exactly two hosts and hosts[0] otherwise; an empty host list is an IndexError; it is a cross-node gate iff there are exactly two host ids, whether or not they differ |
| Operations.GetDict | interlinq/objects/operation.py:177-191 | the dictionary has exactly the seven field keys |
| Operations.DictRoundTrip | interlinq/objects/operation.py:177-191 | reading the dictionary back gives the operation, so the dictionary form loses nothing |
| Operations.GetDictInjective | interlinq/objects/operation.py:177-191 | distinct operations have distinct dictionaries |
| Operations.DefaultDict | interlinq/objects/operation.py:27-28 | with the default arguments, cids and gate_param are None and pre_allocated_qubits is False in the dictionary |
| Layers.Layer.constructor | interlinq/objects/layer.py:10-19 | without a list the layer is empty; a given list is used as it is |
| Layers.Layer.AddOperation | interlinq/objects/layer.py:49-56 | appends the operation at the end, and the earlier operations are unchanged |
| Layers.Layer.AddOperations | interlinq/objects/layer.py:58-65 | extends the list by the arguments, in argument order |
| Layers.Layer.ControlGatePresent | interlinq/objects/layer.py:67-82 | true iff some operation is TWO_QUBIT with exactly two host ids |
| Layers.Layer.RemoveOperation | interlinq/objects/layer.py:84-92 | deletes exactly element i (a negative index counts from the end); an index out of range raises IndexError and changes nothing |
| Layers.RemovalShifts | interlinq/objects/layer.py:84-92 | after a removal the earlier elements keep their places and each later one moves down by one |
| Circuits.AppendUntilDuplicateSpec | interlinq/objects/circuit.py:80-88 | appending keeps the list duplicate-free; it fails iff some new qubit is already listed or repeats an earlier new one; on success every new qubit is appended in order |
| Circuits.AppendUntilDuplicatePrefix | interlinq/objects/circuit.py:80-88 | the appended list is the old one followed by a prefix of the new qubits, and the whole of them unless it failed |
| Circuits.AppendUntilDuplicateFails | interlinq/objects/circuit.py:80-88 | appending fails exactly when a new qubit is already listed or repeats an earlier new one |
| Circuits.AppendUntilDuplicateDistinct | interlinq/objects/circuit.py:80-88 | appending to a duplicate-free list never creates a duplicate |
| Circuits.TotalOfGrow | interlinq/objects/circuit.py:133-145 | when one host's list grows by some qubits, the total grows by their number if that host is counted |
| Circuits.InsertPos | interlinq/objects/circuit.py:121-131 | list.insert's position (a negative index counts from the end, clamped) lies within the list |
| Circuits.CollectLayer | interlinq/objects/circuit.py:110-113 | collects, in qubit order, the operations the qubits recorded at index k |
| Circuits.LayerAtEmpty | interlinq/objects/circuit.py:100-119 | the layer at index k is empty iff no qubit recorded an operation at k |
| Circuits.InfoRevErrPersists | interlinq/objects/circuit.py:180-206 | once a prefix of the reversed-layer scan fails, the whole scan fails with the same error |
| Circuits.Circuit.constructor | interlinq/objects/circuit.py:9-29 | stores the qubit map, layers and qubits with width 0; when no layers are given but qubits are, layer k holds the operations the qubits recorded at k |
| Circuits.Circuit.TotalQubits | interlinq/objects/circuit.py:133-145 | the total is the sum of the lengths of the hosts' qubit lists |
| Circuits.Circuit.AddNewQubit | interlinq/objects/circuit.py:67-88 | a value that is not a list raises ValueError; a new host is added with its list; a known host gets its qubits appended until one is already listed, which raises ValueError after the earlier ones were appended; a known host's list that had no duplicates still has none, and on success the total grows by the number of new qubits; layers and qubits are untouched |
| Circuits.Circuit.AddLayerToCircuit | interlinq/objects/circuit.py:90-98 | appends the layer, and nothing else changes |
| Circuits.Circuit.CreateLayers | interlinq/objects/circuit.py:100-119 | layer k is a fresh layer holding the non-empty list of operations recorded at index k, in qubit order; the layers stop at the first index where no qubit has an operation, so operations after such a gap are dropped |
| Circuits.Circuit.InsertLayer | interlinq/objects/circuit.py:121-131 | inserts the layer at Python's insert position and raises the width to the layer's operation count when that is larger |
| Circuits.Circuit.UpdateLayer | interlinq/objects/circuit.py:147-156 | replaces the layer at the index (negative counts from the end); an index out of range raises IndexError and changes nothing |
| Circuits.Circuit.ControlGateInfo | interlinq/objects/circuit.py:168-206 | the loop that scans backwards and deletes while enumerating computes the specification ControlGates.ControlGateInfo on the current layers |
| ControlGates.InfoRev | interlinq/objects/circuit.py:180-204 | the accumulated scan has one entry list per reversed layer |
| ControlGates.ScanFromTakes | interlinq/objects/circuit.py:190-194 | the inner loop only removes entries from the later layer's list, and what it takes is the run of a matching entry or nothing |
| ControlGates.ScanNoMatch | interlinq/objects/circuit.py:190-194 | with no matching entry, the inner loop changes nothing and takes nothing |
| ControlGates.ScanUniqueMatch | interlinq/objects/circuit.py:189-195 | with exactly one entry matching on the ordered host pair and the control qubit, that entry is removed, the others keep their order, and its run is taken over |
| ControlGates.StartRun | interlinq/objects/circuit.py:185-203 | a cross-node gate with no run to extend opens a run of one gate at its own layer and index |
| ControlGates.ExtendRun | interlinq/objects/circuit.py:189-203 | a cross-node gate extends the matching run of the next layer by one layer, at the front of circuit order |
| ControlGates.NewEntryValid | interlinq/objects/circuit.py:185-203 | every entry the scan creates is a valid run ending at its own operation |
| ControlGates.InfoRevValid | interlinq/objects/circuit.py:180-204 | every entry of the reversed scan is a run of cross-node gates on its host pair and control qubit, one per consecutive layer, latest first |
| ControlGates.ControlGateInfoRuns | interlinq/objects/circuit.py:168-206 | the result has one list per layer, aligned with layer order; every entry is a run of cross-node gates sharing the ordered host pair and control qubit (gate and target are not compared), stored latest first and starting at the entry's own layer and operation index |
| ControlGates.RunChronological | interlinq/objects/circuit.py:195 | read in reverse, a run lists its gates in circuit order, one per consecutive layer |
| ControlGates.InfoRevOk | interlinq/objects/circuit.py:185-186 | the reversed scan succeeds iff every cross-node gate has a readable control qubit |
| ControlGates.ControlGateInfoOk | interlinq/objects/circuit.py:185-186 | the scan fails exactly when some cross-node gate has no readable control qubit |
| ControlGates.InfoRevMerged | interlinq/objects/circuit.py:180-204 | when no layer holds two cross-node gates on one ordered host pair and control qubit, the reversed scan equals a reference: each layer keeps the runs its gates open, less those the layer before it in circuit order continues |
| ControlGates.ResultLayer | interlinq/objects/circuit.py:180-206 | on such layers, result list i holds exactly the runs opened by the gates of layer i whose key layer i - 1 does not hold |
| ControlGates.GateInSomeRun | interlinq/objects/circuit.py:180-206 | on such layers, every cross-node gate is held by some entry of the result, as its gate for the gate's own layer |
| ControlGates.GateInOneRun | interlinq/objects/circuit.py:180-206 | on such layers, two entries that hold the same gate for the same layer are the same entry, kept at the same layer |
| ControlGates.ControlGateInfoCovers | interlinq/objects/circuit.py:168-206 | on such layers, the scan succeeds and every cross-node gate of the circuit lies in exactly one run |
| ControlGates.RepeatedKeyDropsRun | interlinq/objects/circuit.py:189-194 | for layers [[g], [a, x, b]] with a, b, g on one key and x on another, the scan of g deletes a's entry, skips x's and deletes b's, so the result holds the run [b, g] at layer 0 and the run [x] at layer 1, and no entry holds a |
| QubitBuilder.TwoQubitHosts | interlinq/objects/qubit.py:131-133 | the host list starts with the control host, and has a second element, the target host, iff the two hosts differ |
| QubitBuilder.TwoQubitOpReadBack | interlinq/objects/qubit.py:131-140 | the getters read a built two-qubit gate back as built (control and target qubit and host), and it is a cross-node gate exactly when the hosts differ |
| QubitBuilder.Qubit.constructor | interlinq/objects/qubit.py:10-32 | a new qubit is at layer 0; with prepareQubit it holds a PREPARE_QUBITS operation on its own id and host at layer 0, otherwise nothing |
| QubitBuilder.Qubit.UpdateOperations | interlinq/objects/qubit.py:72-80 | records the operation at the current layer, overwriting what was stored there |
| QubitBuilder.Qubit.Prepare | interlinq/objects/qubit.py:82-91 | records a preparation of this qubit at the current layer |
| QubitBuilder.Qubit.UpdateLayer | interlinq/objects/qubit.py:93-100 | sets the current layer; the operations are unchanged |
| QubitBuilder.Qubit.Single | interlinq/objects/qubit.py:102-118 | moves exactly one layer on and records the gate at the new layer, which was empty |
| QubitBuilder.Qubit.TwoQubit | interlinq/objects/qubit.py:120-149 | records the gate only in the control qubit's map; when the target's layer t is ahead of the control's layer s, the target ends at t+1 and the control at t+2; otherwise both end at s+1 |
| QubitBuilder.Qubit.ClassicalCtrlGate | interlinq/objects/qubit.py:151-170 | moves exactly one layer on and records the classically controlled gate there |
| QubitBuilder.Qubit.Measure | interlinq/objects/qubit.py:254-270 | moves exactly one layer on and records the measurement there |
| Compiler.Digits | interlinq/components/controller_host.py:216-217 | the decimal form of a counter is a non-empty string of digits |
| Compiler.FreshId | interlinq/components/controller_host.py:216-217 | a fresh identifier is at least 15 characters long, like a uuid4 string |
| Compiler.FreshIdInjective | interlinq/components/controller_host.py:216-217 | distinct counters give distinct identifiers |
| Compiler.RunErrorNone | interlinq/components/controller_host.py:211-282 | with the intended name list, building a run's block fails exactly when the run lacks a second host or a gate's target qubit cannot be read |
| Compiler.InfoErrorNone | interlinq/components/controller_host.py:211-282 | with the intended name list, building a layer's block fails exactly when one of its runs does |
| Compiler.MaxLenIsMax | interlinq/components/controller_host.py:204-206 | the computed maximum bounds every run's length and is the length of some run |
| Compiler.LongestRun | interlinq/components/controller_host.py:204-206 | the first loop computes the length of the longest run |
| Compiler.BlockSlots | interlinq/components/controller_host.py:208-209 | the block has 8 + (longest run) layers, and layer s holds every run's contribution to slot s, in run order |
| Compiler.ReplaceControlGates | interlinq/components/controller_host.py:191-328 | with the intended name list, the slot-filling loop over an array of operation lists computes the specification Replace: the current layer grows by every run's EPR pair, and the block is empty for no runs and otherwise 8 + (longest run) layers |
| Compiler.ReplaceFails | interlinq/components/controller_host.py:211-282 | when a run cannot be built, the replacement fails with that run's error |
| Compiler.ReplaceSucceeds | interlinq/components/controller_host.py:211-328 | when every run can be built, the replacement gives the current layer plus the EPR pairs, and the block |
| Compiler.AddRun | interlinq/components/controller_host.py:211-319 | one iteration of the run loop makes the slots hold the contributions of one more run |
| Compiler.FillRun | interlinq/components/controller_host.py:236-319 | with the intended name list, every slot gains exactly what the run puts there: CNOT, MEASURE, send/receive, controlled X, the run's gates, H, MEASURE, send/receive, controlled Z |
| Compiler.KeptMembers | interlinq/components/controller_host.py:350-352 | the new layer holds exactly the operations that are not cross-node controlled gates |
| Compiler.KeepLocal | interlinq/components/controller_host.py:348-352 | the filtering loop keeps the non-cross-node operations in order |
| Compiler.CompileLayer | interlinq/components/controller_host.py:348-360 | one iteration of the compiler loop adds the surviving layer, grown by its EPR pairs and dropped when empty, followed by the block |
| Compiler.GenerateDistributedCircuit | interlinq/components/controller_host.py:330-364 | with the intended name list, the compiler loop computes the specification Compile, including the scan's failure and the block construction's errors (a missing second host or an unreadable target qubit) |
| Compiler.CompileLayers | interlinq/components/controller_host.py:347-360 | the loop over the layers computes CompileFrom from layer 0 |
| Compiler.EmittedKindsIntended | interlinq/components/controller_host.py:221-319 | every kind a block emits is on the intended name list |
| Compiler.RunSlotLocal | interlinq/components/controller_host.py:236-319 | every operation a run puts into a slot has a known kind and is not a cross-node gate, and each of the run's 8 + n slots is non-empty |
| Compiler.BlockLocal | interlinq/components/controller_host.py:322-326 | every layer of a teleportation block is a non-empty layer of single-node operations |
| Compiler.EntPairsLocal | interlinq/components/controller_host.py:221-233 | the operations added to the current layer are SEND_ENT and REC_ENT |
| Compiler.LayerOutLocal | interlinq/components/controller_host.py:348-360 | every layer one input layer compiles to is non-empty and free of cross-node gates |
| Compiler.CompiledIsLocal | interlinq/components/controller_host.py:330-364 | the compiled circuit holds no cross-node controlled gate and no empty layer |
| Compiler.CompiledOperationsConstructible | interlinq/components/controller_host.py:221-319 | with the intended name list, every operation of a compiled circuit is accepted unchanged by the Operation constructor |
| Compiler.BlockRejectedAsWritten | interlinq/components/controller_host.py:265-270 | with the name list as written, slot 3 of every non-empty block holds a controlled X that the constructor refuses |
| Compiler.KeptAll | interlinq/components/controller_host.py:350-352 | a layer without cross-node gates is kept whole |
| Compiler.RunStartsWithCross | interlinq/objects/circuit.py:185-203 | a run found at layer i starts with the cross-node gate at its own index of layer i |
| Compiler.NoRunsInLocalCircuit | interlinq/objects/circuit.py:168-206 | the scan of a circuit of local layers succeeds and finds no run in any layer |
| Compiler.LayerOutNoRuns | interlinq/components/controller_host.py:348-360 | a local layer without runs compiles to itself |
| Compiler.CompileLocalIdentity | interlinq/components/controller_host.py:330-364 | a circuit that is already local compiles to itself and draws no fresh id |
| Compiler.CompileIdempotent | interlinq/components/controller_host.py:330-364 | compiling a compiled circuit again changes nothing |
| Compiler.TargetGatesInCircuitOrder | interlinq/components/controller_host.py:273-282 | slot 4 + j of a run's block applies, on the target host only and on [EPR id, original target], the gate and parameter of the run's j-th gate in circuit order, which the input holds j layers after the run starts |
| Compiler.CompileCounter | interlinq/components/controller_host.py:216-217 | every run draws exactly three fresh identifiers, so the counter a compilation returns is three per run past its start |
| Compiler.EntPairAt | interlinq/components/controller_host.py:221-233 | the EPR pair of run r sits at positions 2r and 2r+1 of the added operations |
| Compiler.EntPairsLayout | interlinq/components/controller_host.py:221-233 | one pair per run, in run order: SEND_ENT on [control host, target host] and REC_ENT on [target host, control host], both on the run's own EPR id, with pre_allocated_qubits set |
| Compiler.ThreeLayerScan | tests/test_controller_host.py:147-202 | for the three-layer test circuit, the control-gate scan finds exactly one run, the CNOT of layer 1 alone, and nothing for layers 0 and 2 |
| Compiler.ThreeLayerShape | interlinq/components/controller_host.py:330-364 | a local layer, a layer of one cross-node CNOT with one local gate, and a local layer compile to 12 layers: the first as it was, the local gate followed by the EPR pair, a 9-layer block opening with the CNOT onto the EPR qubit and closing with the classically controlled Z, and the last layer as it was; three ids are drawn |
| Compiler.ThreeLayerCircuit | tests/test_controller_host.py:147-217 | the test's circuit compiles to 12 layers; layer 1 is SINGLE, SEND_ENT, REC_ENT, layer 2 starts with TWO_QUBIT, layer 10 with CLASSICAL_CTRL_GATE and layer 11 with MEASURE (with the intended name list) |
| Controller.ExecutionTime | interlinq/components/controller_host.py:366-392 | a successful lookup names a registered host and a kind in its table; gate kinds are looked up by gate and the others by name, and a missing key is a KeyError |
| Controller.ExecutionTimeDefault | interlinq/components/controller_host.py:366-392 | under the default table, the lookup succeeds exactly for the operations that table can time, and every such operation takes one tick |
| Controller.LayerTimeIsMax | interlinq/components/controller_host.py:161-177 | a layer's duration is the maximum of its operations' durations, 0 for an empty layer; the scan fails iff some operation cannot be timed |
| Controller.StampsAt | interlinq/components/controller_host.py:154-177 | operation j of layer k comes after every operation of the earlier layers, and is stamped with the sum of their durations |
| Controller.StampsInOrder | interlinq/components/controller_host.py:154-177 | the flat schedule lists the layers in circuit order, each operation with its layer's start tick |
| Controller.TimelineStamps | interlinq/components/controller_host.py:154-189 | the scheduler stamps operation j of layer k with the sum of the durations of layers 0..k-1 and returns the sum over all layers as the maximum tick; it fails iff some operation cannot be timed |
| Controller.TimelineOrdered | interlinq/components/controller_host.py:154-189 | ticks never decrease along the schedule, and no operation is still running after the returned maximum tick |
| Controller.OpsOnMembers | interlinq/components/controller_host.py:181-187 | a host's entries are exactly the schedule entries whose first host it is |
| Controller.OpsOnOrdered | interlinq/components/controller_host.py:181-187 | filtering by host keeps the tick order |
| Controller.SchedulesPerHost | interlinq/components/controller_host.py:179-189 | there is one schedule per registered host and no other; each holds, in tick order, exactly the stamped operations whose first host it is, all finished by the maximum tick; operations on unregistered hosts appear in none |
| Controller.DefaultMaxTick | interlinq/components/controller_host.py:154-189 | with default tables everywhere, the maximum tick is the number of non-empty layers |
| Controller.OpsOnConcat | interlinq/components/controller_host.py:181-187 | filtering a schedule by host distributes over concatenation, so a host's schedule is built layer by layer |
| Controller.DefaultLayerTime | interlinq/components/controller_host.py:160-175 | under default tables, a non-empty layer whose operations can all be timed takes exactly one tick |
| Controller.TwoHostSchedule | tests/test_controller_host.py:51-145 | for the five-layer two-host circuit of the scheduler test, the two hosts get schedules of four operations each, with the names and layer_end ticks the test expects, and the maximum tick is 5 (the operations are built as values; with the name list as written, the source's constructor refuses the classically controlled X, see Findings) |
| Controller.DefaultLayerTicks | interlinq/components/controller_host.py:161-177 | under the default table, a non-empty layer takes one tick and an empty one none |
| Controller.ControllerHost.constructor | interlinq/components/controller_host.py:19-44 | without a timing map, every listed host gets the default table |
| Controller.ControllerHost.ConnectHost | interlinq/components/controller_host.py:106-122 | the host is listed last and given its table, or the default one when none is supplied |
| Controller.ControllerHost.ConnectHosts | interlinq/components/controller_host.py:124-143 | each host is listed and registered in turn; a non-empty table list shorter than the host list raises IndexError once the host past its end is listed but before it is registered |
| Controller.ControllerHost.ScheduleLayer | interlinq/components/controller_host.py:161-177 | the per-layer loop appends the layer's operations stamped with the current tick, and yields the layer's duration or the lookup's failure |
| Controller.ControllerHost.EntriesOn | interlinq/components/controller_host.py:182-187 | the loop selects the entries whose first host is h, in order |
| Controller.ControllerHost.CreateDistributedSchedules | interlinq/components/controller_host.py:145-189 | the loops compute the per-host schedules and the maximum tick of the specification Schedules |
| Clocks.Clock.constructor | interlinq/components/clock.py:25-35 | the clock starts running with no responses |
| Clocks.Clock.StopClock | interlinq/components/clock.py:90-94 | stops the clock and leaves the response count alone |
| Clocks.Clock.Respond | interlinq/components/clock.py:74-78 | counts exactly one more response |
| ComputingHosts.ComputingHost.constructor | interlinq/components/computing_host.py:20-61 | the host starts with the given capacities, empty stores, no bits, no error and an empty schedule |
| ComputingHosts.ComputingHost.UpdateTotalQubits | interlinq/components/computing_host.py:86-93 | sets the capacity and nothing else |
| ComputingHosts.ComputingHost.ReceiveSchedule | interlinq/components/computing_host.py:109-117 | the schedule is this host's entries grouped by tick, and is empty when the host has none |
| ComputingHosts.ComputingHost.ReportError | interlinq/components/computing_host.py:123-132 | stops the clock and records the message |
| ComputingHosts.ComputingHost.CheckErrors | interlinq/components/computing_host.py:134-169 | the new state is that of the specification Check |
| ComputingHosts.ComputingHost.UpdateStoredQubits | interlinq/components/computing_host.py:207-221 | installs the map, reporting an error when it exceeds the capacity |
| ComputingHosts.ComputingHost.AddNewQubit | interlinq/components/computing_host.py:171-193 | the new state is that of the specification StoreQubit |
| ComputingHosts.ComputingHost.PrepareQubits | interlinq/components/computing_host.py:239-251 | the new state is that of the specification PrepareStep |
| ComputingHosts.ComputingHost.ProcessSingleGates | interlinq/components/computing_host.py:253-304 | the new state, or the crash, is that of the specification SingleGateStep |
| ComputingHosts.ComputingHost.ProcessTwoQubitGates | interlinq/components/computing_host.py:306-335 | the new state, or the crash, is that of the specification TwoQubitStep |
| ComputingHosts.ComputingHost.ProcessClassicalCtrlGates | interlinq/components/computing_host.py:337-356 | the new state, or the crash, is that of the specification ClassicalCtrlStep |
| ComputingHosts.ComputingHost.ProcessSendEnt | interlinq/components/computing_host.py:358-377 | the new state, or the crash, is that of the specification SendEntStep |
| ComputingHosts.ComputingHost.ProcessRecEnt | interlinq/components/computing_host.py:379-406 | the new state, or the crash, is that of the specification RecEntStep |
| ComputingHosts.ComputingHost.ProcessSendClassical | interlinq/components/computing_host.py:408-429 | the new state, or the crash, is that of the specification SendClassicalStep |
| ComputingHosts.ComputingHost.ProcessRecClassical | interlinq/components/computing_host.py:431-449 | the new state, or the crash, is that of the specification RecClassicalStep |
| ComputingHosts.ComputingHost.ProcessMeasurement | interlinq/components/computing_host.py:451-478 | the new state, or the crash, is that of the specification MeasureStep |
| ComputingHosts.ComputingHost.Dispatch | interlinq/components/computing_host.py:489-516 | one operation is dispatched on its name, as the specification Step does |
| ComputingHosts.ComputingHost.PerformSchedule | interlinq/components/computing_host.py:480-518 | running a tick gives the state, or the crash, of the specification TickStep; the schedule is unchanged |
| ComputingHosts.ComputingHost.Bits | interlinq/components/computing_host.py:72-84 | the reported bits are exactly the stored bits whose id is shorter than 15 characters, with their values |
| ComputingHosts.ComputingHost.SendResults | interlinq/components/computing_host.py:520-542 | the message is an error iff a non-empty error message was recorded, and carries that message; otherwise it carries the reported bits |
| ComputingHosts.CheckMessageCases | interlinq/components/computing_host.py:134-169 | _check_errors flags an operation exactly when one of its four checks fails (too many qids, hosts or cids, each counted only when present, or a first host other than this one), and the message is that of the last failing check |
| ComputingHosts.CheckOutcome | interlinq/components/computing_host.py:134-169 | only an empty host list raises; a failing check only stops the clock and records the message, and leaves the stores alone |
| ComputingHosts.MeasurementAfterReport | interlinq/components/computing_host.py:451-478 | a measurement on a wrong host is still carried out: the error is recorded, the clock is stopped and the outcome is stored |
| ComputingHosts.StoreQubitPool | interlinq/components/computing_host.py:182-189 | a pool qubit is stored either way; the pool counter goes down when it is positive, and otherwise the shortage is reported |
| ComputingHosts.StoreQubitGeneral | interlinq/components/computing_host.py:190-193 | a general qubit joins the general store, which is installed even above capacity, with the excess reported |
| ComputingHosts.StoredQubitLookup | interlinq/components/computing_host.py:195-205 | a qubit is found in the general store first and in the pool second |
| ComputingHosts.PreparedKeys | interlinq/components/computing_host.py:239-251 | the prepared store holds exactly the listed ids, each with its own qubit |
| ComputingHosts.PrepareReplaces | interlinq/components/computing_host.py:239-251 | preparing replaces the general store by exactly the listed qubits, leaves the pool and the bits alone, and reports when the distinct ids exceed the capacity |
| ComputingHosts.ClassicalCtrlGated | interlinq/components/computing_host.py:337-356 | a classically controlled gate is applied iff the stored control bit is nonzero; a missing bit raises KeyError |
| ComputingHosts.RecClassicalStores | interlinq/components/computing_host.py:431-449 | the received value is stored under the first bit id |
| ComputingHosts.SendClassicalBit | interlinq/components/computing_host.py:408-429 | sending a bit the host does not hold reports it and then raises KeyError; a held bit is sent with its value |
| ComputingHosts.MeasureAccounting | interlinq/components/computing_host.py:451-478 | a measurement stores the outcome under the bit id; a pool qubit goes back to the pool, whose counter rises by one; a general qubit leaves the general store and the capacity falls by one |
| ComputingHosts.MeasureMissingQubit | interlinq/components/computing_host.py:451-478 | measuring a qubit the host does not hold raises AttributeError |
| ComputingHosts.UnknownNameIgnored | interlinq/components/computing_host.py:489-516 | an operation whose name perform_schedule does not dispatch on is ignored |
| ComputingHosts.StepGrows | interlinq/components/computing_host.py:253-478 | no handler lowers the response count, restarts a stopped clock, erases a recorded error or shrinks the call log |
| ComputingHosts.RunOpsGrows | interlinq/components/computing_host.py:489-516 | running a tick's operations, with a crash or without, keeps all of that |
| ComputingHosts.TickStepResponds | interlinq/components/computing_host.py:480-518 | perform_schedule answers the clock exactly once when the tick's operations all complete, and not at all when one of them raises |
| ComputingHosts.RunOpsInOrder | interlinq/components/computing_host.py:489-516 | a tick's operations run one after another, each on the state the previous one left |
| ComputingHosts.GroupIsFilter | interlinq/components/computing_host.py:109-117 | the grouping holds a tick exactly when some entry carries it, and under it the entries with that tick, in schedule order |
| ComputingHosts.ReceivedSchedule | interlinq/components/computing_host.py:109-117 | every tick's list holds exactly this host's entries with that tick |
| ComputingHosts.FreshBitsHidden | interlinq/components/computing_host.py:79-84 | a bit named with a compiler-drawn fresh id is never reported, and every shorter id is reported with its value |
| GreedyScheduler.IsNotDistributedOneQpu | examples/vqe-examples/general_scheduler.py:161-163 | an allocation is not distributed iff exactly one entry is nonzero |
| GreedyScheduler.SortDescFacts | examples/vqe-examples/general_scheduler.py:98 | the stable descending sort is a permutation, is sorted by free qubits, and keeps every QPU's free count |
| GreedyScheduler.KeepFreeFacts | examples/vqe-examples/general_scheduler.py:123 | dropping empty slots keeps exactly the slots with free qubits, every QPU's count, and distinct QPUs |
| GreedyScheduler.FillAllocation | examples/vqe-examples/general_scheduler.py:128-143 | each listed QPU's free qubits are at its index and 0 elsewhere, with one entry per QPU; the sum is the listed total |
| GreedyScheduler.DoesNotFit | examples/vqe-examples/general_scheduler.py:145-175 | true iff no prefix of the list holds the state, on one QPU unless distribution is allowed |
| GreedyScheduler.FitsSorted | examples/vqe-examples/general_scheduler.py:165-175 | on a sorted list the prefix search is the plain condition: with distribution the total covers the state, without it the largest slot alone does |
| GreedyScheduler.FitsAtFullCaps | examples/vqe-examples/general_scheduler.py:91-102 | at full capacity the state fits iff the QPUs hold enough qubits together (with distribution) or some QPU holds enough alone (without) |
| GreedyScheduler.Drain | examples/vqe-examples/general_scheduler.py:111-120 | the in-order drain of the prefix yields exactly the greedy fill: the lowered list is `Drained(ms, oracle)` and the distribution is `Greedy(ms, numQpus, oracle)`; the distribution has one count per QPU summing to the state's size, takes from each QPU what its slot lost, and the slots after the prefix are untouched |
| GreedyScheduler.DrainedAt | examples/vqe-examples/general_scheduler.py:113-118 | slot x gives min(its free qubits, what the state still needs after the slots before x), and keeps its QPU |
| GreedyScheduler.GreedyFillShape | examples/vqe-examples/general_scheduler.py:107-121 | the fill empties every slot whose prefix total is at most the state's size, leaves untouched every slot whose preceding slots already hold the state, leaves the boundary slot with the prefix total minus the state's size, and keeps each slot's QPU |
| GreedyScheduler.FreeOfDrained | examples/vqe-examples/general_scheduler.py:114-117 | the fill loses no qubit: for each QPU, what remains on its slots plus what the distribution takes from it is its free count before |
| GreedyScheduler.DrainedNothing | examples/vqe-examples/general_scheduler.py:118-119 | with no qubit left to place the fill changes nothing, which is why the loop may stop early |
| GreedyScheduler.GreedyFirstSlotsFirst | examples/vqe-examples/general_scheduler.py:107-121 | with free counts 3, 2, 2 on QPUs 0, 1, 2 and a state of 4 qubits, the fill leaves 0, 1, 2 free and takes [3, 1, 0]: the first slots are used first |
| GreedyScheduler.PlaceState | examples/vqe-examples/general_scheduler.py:106-121 | placing a state gives the greedy fill of the list (`Drained` and `Greedy`): every slot whose prefix total is at most the state's size is emptied, every slot after the prefix that holds the state is untouched; the distribution sums to its size and is balanced against what the slots lost; when the first slot alone holds it, that QPU is the only one used |
| GreedyScheduler.PlaceOrPostpone | examples/vqe-examples/general_scheduler.py:97-124 | a state is placed iff it fits the sorted working list; the state it leaves is exactly the round step `RoundStep`: when the state fits, the working list becomes the greedy fill of the sorted list with emptied slots dropped and the entry (i, greedy distribution) is appended; otherwise the working list is the sorted one, the entries are unchanged and couldNotFit grows by one; the round's accounting is kept |
| GreedyScheduler.RoundAdvance | examples/vqe-examples/general_scheduler.py:97-124 | after the first i states of a round, one more step of the loop gives the round's state after i + 1 states |
| GreedyScheduler.GreedyRoundPostpones | examples/vqe-examples/general_scheduler.py:93-124 | in a round of n states every state is either placed or postponed, and when the first state fits the full QPUs fewer than n states are postponed |
| GreedyScheduler.GreedyRoundFillsFirst | examples/vqe-examples/general_scheduler.py:97-124 | one QPU of 4 qubits and two states of 2 qubits with distribution allowed: both states are placed in the round, each taking 2 qubits of QPU 0, and none is postponed |
| GreedyScheduler.ScheduleRound | examples/vqe-examples/general_scheduler.py:91-124 | the round stops iff it is the first round and its first state does not fit the full QPUs; otherwise its entries and postponed count are exactly those of `GreedyRound`, states 0..n-1 each placed by the greedy fill or postponed in turn, and every state is scheduled or postponed; the entries are valid, with rising state indices, each distribution summing to the state's size, on one QPU unless distribution is allowed, within every QPU's capacity; when the first state fits, at least one state is scheduled |
| GreedyScheduler.ExtendSchedule | examples/vqe-examples/general_scheduler.py:91-126 | a valid round of n states at `round` followed by rounds that schedule its postponed states gives valid rounds round..last that keep every other round and hold all n states |
| GreedyScheduler.ScheduleFillsFirst | examples/vqe-examples/general_scheduler.py:82-126 | one QPU of 4 qubits and two states of 2 qubits: the schedule is round 1 holding both states on QPU 0, and nothing else |
| GreedyScheduler.SchedulePostpones | examples/vqe-examples/general_scheduler.py:82-126 | one QPU of 3 qubits and two states of 2 qubits: state 0 goes into round 1, state 1 does not fit the qubit left and is postponed to round 2, where it is placed as that round's state 0 |
| GreedyScheduler.GreedySchedule.constructor | examples/vqe-examples/general_scheduler.py:27-45 | stores the parameters, with an empty schedule |
| GreedyScheduler.GreedySchedule.MakeScheduleFrom | examples/vqe-examples/general_scheduler.py:82-126 | the new schedule is `Scheduled` of the old one: round `round` gets the greedy round's entries and the postponed states are scheduled from round + 1 on; rounds round..last are scheduled and every other round is kept; each scheduled round is valid; zero states or a zero oracle size schedule nothing; an infeasible first round leaves round 1 empty and ends the schedule; otherwise the rounds hold exactly n states in all |
| GreedyScheduler.GreedySchedule.MakeSchedule | examples/vqe-examples/general_scheduler.py:76-80 | the new schedule is `Scheduled` of the old one for all states from round 1; its rounds from 1 on are valid and hold every state, or round 1 is empty when the first state does not fit |

## Left out

- The clock's tick loop is left out: it runs one thread per host per tick and busy-waits. Only the two clock fields a computing host writes are modelled (the stop flag and the response count). So are the clock's singleton handling, `initialise`, `start`, `attach_host` and `detach_host`.
- QuNetSim transport is not modelled:
  - network creation and host connections;
  - the broadcast of the schedules and the ACK waits;
  - `generate_and_send_schedules` and `receive_results`;
  - message polling and JSON decoding in `receive_schedule`;
  - the sleep-poll of `_process_rec_ent` and the wait loop of `send_results`.
  Sends appear as entries of the opaque `Call` log, and what arrives is a `Backend` input.
- Gate applications on QuNetSim qubit handles are recorded as `Call` entries. Their quantum effect is not modelled.
- `extract_gate_param` and `NumpyEncoder` are left out, because they handle floats, complex numbers and numpy arrays. Gate parameters are an uninterpreted `GateParam` value.
- uuid4 identifiers are replaced by `Compiler.FreshId(k)`, a counter-based supply. Their randomness is not modelled; only their distinctness and their length of at least 15 characters are.
- The `Qubit` methods `send_ent`, `rec_ent`, `send_classical` and `rec_classical` are left out, because they cannot run:
  - the first two pass a `pre_allocated` keyword that `Operation` does not accept;
  - the last two use names that are not defined.
- `Circuit.update_qubits` (a plain setter), `__str__` methods and the read-only properties are left out, except where a property is a field of the model.
- Circuits.Circuit.AddNewQubit: takes one host and its value. The source takes a dictionary and checks only its first key; for a new host it merges every key of the dictionary into the map, which the model does not.
- The JSON wire format of the schedules is modelled by `Operations.GetDict` and `Operations.DictRoundTrip`, not as text.
- Python's mutable default arguments are not modelled. These are `computing_host_ids=[]` in the controller and `Operation`, and `layers=[]`/`qubits=[]` in `Circuit`. Each object gets its own sequence.
- GreedyScheduler: `HardwareConfig.num_qpus` is the length of `qubitsPerQpu`, used directly. The printing methods are left out.
- GreedyScheduler.SortDesc: Python's `sort(reverse=True)` is stable. It is modelled as a stable insertion sort on values, not as the in-place Timsort.
- GreedyScheduler.Drain: the in-place decrement through the slice `possible_qpus[idx][0] -= t` is modelled on values: the method returns the lowered list. Aliasing between the slice and the working list is not modelled.
- GreedyScheduler.GreedySchedule.MakeScheduleFrom: requires that in rounds after the first, with states left and a non-zero oracle size, the first state fits the full QPUs. `make_schedule` only reaches later rounds when this holds. Without it the source would recurse forever. Its ghost result `last` names the last round scheduled; the source returns nothing.
- GreedyScheduler.ScheduleRound: requires a non-zero oracle size, because `__make_schedule` returns before any round when it is zero.
- GreedyScheduler.FillAllocation: requires a non-empty list, because the source indexes its first element and every caller passes a non-empty prefix.
- Compiler.GenerateDistributedCircuit: builds the blocks' operations with the intended name list. As written, the block of every run raises InputError at its classically controlled X, so any circuit with a cross-node gate fails to compile (see Findings).
- Compiler.ReplaceControlGates: see Compiler.GenerateDistributedCircuit; the block is built with the intended name list.
- Compiler.FillRun: see Compiler.GenerateDistributedCircuit; the block is built with the intended name list.
- Compiler.RunErrorNone: see Compiler.GenerateDistributedCircuit; the InputError of the name list as written is not among its failure cases.
- Compiler.InfoErrorNone: see Compiler.GenerateDistributedCircuit; the InputError of the name list as written is not among its failure cases.
- Controller.ExecutionTime: operation durations are whole ticks (`nat`). The source documents them as floats and accepts any number in a host's timing table; fractional durations, and so fractional `layer_end` ticks, are not modelled. The same holds for every member of `OperationTime` and `Controller` that reads a duration.
- ControlGates.ControlGateInfoCovers: coverage is proved only for layers where no two cross-node gates share an ordered host pair and control qubit. Outside that, the scan can lose a run; the model keeps that behaviour, and ControlGates.RepeatedKeyDropsRun exhibits it.
- QubitBuilder.Qubit.ClassicalCtrlGate: builds its operation with the intended name list. With the list as written, the source raises InputError here (see Findings).
- The five-layer compiler test of tests/test_controller_host.py (23 layers, maximum tick 23) is not instantiated: unfolding the scan and three blocks concretely is costly. The general lemmas about `Compile` and the three-layer instance `Compiler.ThreeLayerCircuit` cover the block layout it checks.
- VQE and Hamiltonian utilities, the example drivers, build artefacts, the older top-level tree and setup.py are not part of this model.

## Findings

| source | as written | input that shows it | evidently intended | confidence | as-written member | corrected member |
|---|---|---|---|---|---|---|
| interlinq/utils/constants.py:7-8 | a missing comma fuses "THREE_QUBIT" and "CLASSICAL_CTRL_GATE" into one list entry, so the Operation constructor (interlinq/objects/operation.py:46-47) rejects both kinds | `Operation(name="CLASSICAL_CTRL_GATE", ...)` with any other arguments raises InputError | twelve names, one per kind constant, so classically controlled gates can be built | not executed | Operations.ClassicalCtrlGateRejectedAsWritten | Operations.NewOperation |
| interlinq/components/controller_host.py:265-270 | the compiler builds a classically controlled X for every run, which the constructor refuses under the fused list | any circuit with one cross-node CNOT: slot 3 of its block holds a CLASSICAL_CTRL_GATE operation | every compiled operation is one the constructor accepts | not executed | Compiler.BlockRejectedAsWritten | Compiler.CompiledOperationsConstructible |
