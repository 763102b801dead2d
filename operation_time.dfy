/**
 * The default timing tables of build/lib/interlinq/utils/default_operation_time.py.
 * A table maps an operation name either to one duration or to a per-gate map.
 */
module OperationTime {
  import opened Constants

  datatype Entry = Duration(time: nat) | PerGate(times: map<string, nat>)

  type Table = map<string, Entry>

  const SingleGateNames: seq<string> :=
    ["I", "X", "Y", "Z", "T", "K", "H", "rx", "ry", "rz", "custom_gate"]

  const TwoQubitGateNames: seq<string> :=
    ["cnot", "cphase", "custom_two_qubit_gate", "custom_controlled_gate"]

  const DefaultSingleGateTime: map<string, nat> :=
    map g | g in SingleGateNames :: DEFAULT_SINGLE_GATE_TIME

  const DefaultTwoQubitGateTime: map<string, nat> :=
    map g | g in TwoQubitGateNames :: DEFAULT_SINGLE_GATE_TIME

  /** A copy of the single-gate table updated with the two-qubit table. */
  const DefaultGateTime: map<string, nat> := DefaultSingleGateTime + DefaultTwoQubitGateTime

  const DefaultOperationTime: Table := map[
    PREPARE_QUBITS := Duration(DEFAULT_SINGLE_OPERATION_TIME),
    SINGLE := PerGate(DefaultSingleGateTime),
    TWO_QUBIT := PerGate(DefaultTwoQubitGateTime),
    CLASSICAL_CTRL_GATE := PerGate(DefaultGateTime),
    MEASURE := Duration(DEFAULT_SINGLE_OPERATION_TIME),
    SEND_ENT := Duration(DEFAULT_SINGLE_OPERATION_TIME),
    REC_ENT := Duration(DEFAULT_SINGLE_OPERATION_TIME),
    SEND_CLASSICAL := Duration(DEFAULT_SINGLE_OPERATION_TIME),
    REC_CLASSICAL := Duration(DEFAULT_SINGLE_OPERATION_TIME)
  ]

  /** The two default times are both one tick. */
  lemma DefaultTimesAreOne()
    ensures DEFAULT_SINGLE_GATE_TIME == 1 && DEFAULT_SINGLE_OPERATION_TIME == 1
  {
  }

  /** Gate tables: exactly the listed gates, each at the default gate time. */
  lemma GateTablesCoverTheirGates(g: string)
    ensures g in DefaultSingleGateTime <==> g in SingleGateNames
    ensures g in DefaultTwoQubitGateTime <==> g in TwoQubitGateNames
    ensures g in DefaultSingleGateTime ==> DefaultSingleGateTime[g] == DEFAULT_SINGLE_GATE_TIME
    ensures g in DefaultTwoQubitGateTime ==> DefaultTwoQubitGateTime[g] == DEFAULT_SINGLE_GATE_TIME
  {
  }

  /** The classically controlled table is the union of the other two gate tables. */
  lemma ClassicalControlTableIsUnion(g: string)
    ensures DefaultOperationTime[CLASSICAL_CTRL_GATE] == PerGate(DefaultGateTime)
    ensures g in DefaultGateTime <==> g in SingleGateNames || g in TwoQubitGateNames
    ensures g in DefaultGateTime ==> DefaultGateTime[g] == DEFAULT_SINGLE_GATE_TIME
  {
  }

  /** Which names the default table has entries for, and of which shape. */
  lemma DefaultOperationTimeShape(name: string)
    ensures name in DefaultOperationTime <==>
      name in [PREPARE_QUBITS, SINGLE, TWO_QUBIT, CLASSICAL_CTRL_GATE, MEASURE,
               SEND_ENT, REC_ENT, SEND_CLASSICAL, REC_CLASSICAL]
    ensures name in [PREPARE_QUBITS, MEASURE, SEND_ENT, REC_ENT, SEND_CLASSICAL, REC_CLASSICAL] ==>
      DefaultOperationTime[name] == Duration(DEFAULT_SINGLE_OPERATION_TIME)
    ensures name in [SINGLE, TWO_QUBIT, CLASSICAL_CTRL_GATE] ==> DefaultOperationTime[name].PerGate?
    ensures THREE_QUBIT !in DefaultOperationTime
    ensures REC_HAMILTON !in DefaultOperationTime && SEND_EXP !in DefaultOperationTime
  {
  }
}
