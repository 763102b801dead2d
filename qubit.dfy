/**
 * The qubit-centric circuit builder of interlinq/objects/qubit.py. Each
 * qubit keeps the layer of its last operation and a map from layer index to
 * the operation it recorded there.
 */
module QubitBuilder {
  import opened Wrappers
  import opened Constants
  import opened Operations

  function PrepareOp(qid: string, host: string): Operation {
    Operation(PREPARE_QUBITS, Some([qid]), None, None, None, [host], false)
  }

  function SingleOp(qid: string, host: string, gate: string, param: Option<GateParam>): Operation {
    Operation(SINGLE, Some([qid]), None, Some(gate), param, [host], false)
  }

  /** The host list of a two-qubit gate: one host when both qubits share it, else both. */
  function TwoQubitHosts(controlHost: string, targetHost: string): (hosts: seq<string>)
    ensures |hosts| >= 1 && hosts[0] == controlHost
    ensures |hosts| == 2 <==> controlHost != targetHost
    ensures |hosts| == 2 ==> hosts[1] == targetHost
  {
    if targetHost != controlHost then [controlHost, targetHost] else [controlHost]
  }

  function TwoQubitOp(controlQid: string, controlHost: string, targetQid: string, targetHost: string,
                      gate: string, param: Option<GateParam>): Operation {
    Operation(TWO_QUBIT, Some([controlQid, targetQid]), None, Some(gate), param,
              TwoQubitHosts(controlHost, targetHost), false)
  }

  function ClassicalCtrlOp(qid: string, host: string, bitId: string, gate: string, param: Option<GateParam>): Operation {
    Operation(CLASSICAL_CTRL_GATE, Some([qid]), Some([bitId]), Some(gate), param, [host], false)
  }

  function MeasureOp(qid: string, host: string, bitId: string): Operation {
    Operation(MEASURE, Some([qid]), Some([bitId]), None, None, [host], false)
  }

  /**
   * A two-qubit gate built by the builder is read back by the getters as
   * built: control and target qubit, control and target host, and it is a
   * cross-node gate exactly when the two hosts differ.
   */
  lemma {:induction false} TwoQubitOpReadBack(cq: string, ch: string, tq: string, th: string,
                                              gate: string, param: Option<GateParam>)
    ensures var op := TwoQubitOp(cq, ch, tq, th, gate, param);
      NewOperation(op.name, op.qids, op.cids, op.gate, op.gateParam, op.hosts, op.preAllocated) == Ok(op)
      && ControlQubit(op) == Ok(cq) && TargetQubit(op) == Ok(tq)
      && ControlHost(op) == Ok(ch) && TargetHost(op) == Ok(th)
      && (IsControlGateOverTwoHosts(op) <==> ch != th)
  {
    var op := TwoQubitOp(cq, ch, tq, th, gate, param);
    TwoQubitGetters(op);
  }

  class Qubit {
    const hostId: string
    const qid: string
    var operations: map<nat, Operation>
    var currentLayer: nat

    /** Every recorded operation lies at or before the current layer. */
    ghost predicate Valid()
      reads this
    {
      forall k :: k in operations ==> k <= currentLayer
    }

    /** With prepareQubit set, the qubit starts with a preparation at layer 0. */
    constructor (hostId: string, qid: string, prepareQubit: bool)
      ensures this.hostId == hostId && this.qid == qid && currentLayer == 0 && Valid()
      ensures operations == if prepareQubit then map[0 := PrepareOp(qid, hostId)] else map[]
    {
      this.hostId := hostId;
      this.qid := qid;
      operations := map[];
      currentLayer := 0;
      new;
      if prepareQubit {
        Prepare();
      }
    }

    /** Records op at the current layer, replacing whatever was stored there. */
    method UpdateOperations(op: Operation)
      modifies this
      ensures operations == old(operations)[currentLayer := op]
      ensures currentLayer == old(currentLayer)
    {
      operations := operations[currentLayer := op];
    }

    method Prepare()
      modifies this
      ensures operations == old(operations)[currentLayer := PrepareOp(qid, hostId)]
      ensures currentLayer == old(currentLayer)
    {
      var op := NewOperation(PREPARE_QUBITS, Some([qid]), None, None, None, [hostId], false).value;
      UpdateOperations(op);
    }

    method UpdateLayer(layer: nat)
      modifies this
      ensures currentLayer == layer && operations == old(operations)
    {
      currentLayer := layer;
    }

    /** A single-qubit gate one layer after the qubit's last operation. */
    method Single(gate: string, gateParam: Option<GateParam>)
      requires Valid()
      modifies this
      ensures Valid()
      ensures currentLayer == old(currentLayer) + 1
      ensures operations == old(operations)[currentLayer := SingleOp(qid, hostId, gate, gateParam)]
      ensures currentLayer !in old(operations)
    {
      var op := NewOperation(SINGLE, Some([qid]), None, Some(gate), gateParam, [hostId], false).value;
      UpdateLayer(currentLayer + 1);
      UpdateOperations(op);
    }

    /**
     * A two-qubit gate from this (control) qubit to target. Both qubits move
     * past their last operations; the gate is recorded only in the control
     * qubit's map. A target that is this qubit itself ends two layers on.
     */
    method TwoQubit(gate: string, target: Qubit, gateParam: Option<GateParam>)
      requires Valid() && target.Valid()
      modifies this, target
      ensures Valid() && target.Valid()
      ensures operations == old(operations)[currentLayer :=
        TwoQubitOp(qid, hostId, target.qid, target.hostId, gate, gateParam)]
      ensures target != this ==> target.operations == old(target.operations)
      ensures target != this && old(target.currentLayer) > old(currentLayer) ==>
        target.currentLayer == old(target.currentLayer) + 1 && currentLayer == old(target.currentLayer) + 2
      ensures target != this && old(target.currentLayer) <= old(currentLayer) ==>
        target.currentLayer == old(currentLayer) + 1 && currentLayer == old(currentLayer) + 1
      ensures target == this ==> currentLayer == old(currentLayer) + 2
      ensures currentLayer > old(currentLayer) && currentLayer > old(target.currentLayer)
      ensures target.currentLayer > old(target.currentLayer)
    {
      var hosts := [hostId];
      if target.hostId != hostId {
        hosts := hosts + [target.hostId];
      }
      assert hosts == TwoQubitHosts(hostId, target.hostId);
      var op := NewOperation(TWO_QUBIT, Some([qid, target.qid]), None, Some(gate), gateParam, hosts, false).value;
      if target.currentLayer + 1 > currentLayer + 1 {
        target.UpdateLayer(target.currentLayer + 1);
        UpdateLayer(target.currentLayer + 1);
      } else {
        target.UpdateLayer(currentLayer + 1);
        UpdateLayer(currentLayer + 1);
      }
      UpdateOperations(op);
    }

    /** A gate applied only if classical bit bitId is set, one layer on. */
    method ClassicalCtrlGate(gate: string, bitId: string, gateParam: Option<GateParam>)
      requires Valid()
      modifies this
      ensures Valid()
      ensures currentLayer == old(currentLayer) + 1
      ensures operations == old(operations)[currentLayer := ClassicalCtrlOp(qid, hostId, bitId, gate, gateParam)]
    {
      var op := NewOperation(CLASSICAL_CTRL_GATE, Some([qid]), Some([bitId]), Some(gate), gateParam,
                             [hostId], false).value;
      UpdateLayer(currentLayer + 1);
      UpdateOperations(op);
    }

    /** A measurement into bit bitId, one layer on. */
    method Measure(bitId: string)
      requires Valid()
      modifies this
      ensures Valid()
      ensures currentLayer == old(currentLayer) + 1
      ensures operations == old(operations)[currentLayer := MeasureOp(qid, hostId, bitId)]
    {
      var op := NewOperation(MEASURE, Some([qid]), Some([bitId]), None, None, [hostId], false).value;
      UpdateLayer(currentLayer + 1);
      UpdateOperations(op);
    }
  }
}
