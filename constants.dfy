/** The constant strings and numbers of interlinq/utils/constants.py. */
module Constants {

  const PREPARE_QUBITS: string := "PREPARE_QUBITS"
  const SINGLE: string := "SINGLE"
  const TWO_QUBIT: string := "TWO_QUBIT"
  const THREE_QUBIT: string := "THREE_QUBIT"
  const CLASSICAL_CTRL_GATE: string := "CLASSICAL_CTRL_GATE"
  const REC_ENT: string := "REC_ENT"
  const SEND_ENT: string := "SEND_ENT"
  const SEND_CLASSICAL: string := "SEND_CLASSICAL"
  const REC_CLASSICAL: string := "REC_CLASSICAL"
  const REC_HAMILTON: string := "REC_HAMILTON"
  const SEND_EXP: string := "SEND_EXP"
  const MEASURE: string := "MEASURE"

  /** Fixed layers of one teleportation block, not counting the run's own gates. */
  const DISTRIBUTED_CONTROL_CIRCUIT_LEN: nat := 8

  const DEFAULT_SINGLE_GATE_TIME: nat := 1
  const DEFAULT_SINGLE_OPERATION_TIME: nat := 1

  /**
   * The operation-name list exactly as the Python literal evaluates: the
   * missing comma after "THREE_QUBIT" makes Python concatenate it with the
   * next literal, so the list holds eleven strings, one of them fused.
   */
  const OperationNames: seq<string> := [
    PREPARE_QUBITS,
    SINGLE,
    TWO_QUBIT,
    THREE_QUBIT + CLASSICAL_CTRL_GATE,
    REC_ENT,
    SEND_ENT,
    SEND_CLASSICAL,
    REC_CLASSICAL,
    MEASURE,
    REC_HAMILTON,
    SEND_EXP
  ]

  /** The list the authors evidently meant: every kind constant, twelve names. */
  const IntendedOperationNames: seq<string> := [
    PREPARE_QUBITS,
    SINGLE,
    TWO_QUBIT,
    THREE_QUBIT,
    CLASSICAL_CTRL_GATE,
    REC_ENT,
    SEND_ENT,
    SEND_CLASSICAL,
    REC_CLASSICAL,
    MEASURE,
    REC_HAMILTON,
    SEND_EXP
  ]

  /** Name validity as the constructor of Operation decides it. */
  predicate IsOperationName(name: string) {
    name in OperationNames
  }

  /** Name validity against the intended list. */
  predicate IsIntendedOperationName(name: string) {
    name in IntendedOperationNames
  }

  /** The fused list: eleven entries, neither half of the fused pair is a member. */
  lemma OperationNamesAsWritten()
    ensures |OperationNames| == 11
    ensures "THREE_QUBITCLASSICAL_CTRL_GATE" in OperationNames
    ensures !IsOperationName(THREE_QUBIT)
    ensures !IsOperationName(CLASSICAL_CTRL_GATE)
  {
    assert OperationNames[3] == "THREE_QUBITCLASSICAL_CTRL_GATE";
  }

  /** The intended list differs from the literal one exactly by the fused pair. */
  lemma IntendedNamesDiffer(name: string)
    ensures IsIntendedOperationName(name) <==>
      (IsOperationName(name) && name != THREE_QUBIT + CLASSICAL_CTRL_GATE)
      || name == THREE_QUBIT || name == CLASSICAL_CTRL_GATE
  {
  }

  /** Each kind constant spells its own identifier. */
  lemma KindNamesSpellThemselves()
    ensures PREPARE_QUBITS == "PREPARE_QUBITS" && SINGLE == "SINGLE"
    ensures TWO_QUBIT == "TWO_QUBIT" && THREE_QUBIT == "THREE_QUBIT"
    ensures CLASSICAL_CTRL_GATE == "CLASSICAL_CTRL_GATE"
    ensures REC_ENT == "REC_ENT" && SEND_ENT == "SEND_ENT"
    ensures SEND_CLASSICAL == "SEND_CLASSICAL" && REC_CLASSICAL == "REC_CLASSICAL"
    ensures REC_HAMILTON == "REC_HAMILTON" && SEND_EXP == "SEND_EXP"
    ensures MEASURE == "MEASURE"
  {
  }

  /** The kind constants are pairwise distinct, so dispatch on a name picks one kind. */
  lemma KindNamesDistinct()
    ensures forall i, j :: 0 <= i < j < |IntendedOperationNames| ==>
      IntendedOperationNames[i] != IntendedOperationNames[j]
  {
  }
}
