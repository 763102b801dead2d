/**
 * The Operation record of interlinq/objects/operation.py: a checked
 * constructor, field accessors, the control/target getters of two-qubit
 * operations and the dictionary form broadcast to the computing hosts.
 */
module Operations {
  import opened Wrappers
  import opened Constants

  /** A gate parameter (an angle or a matrix); its numbers are not modelled. */
  type GateParam = seq<real>

  datatype Operation = Operation(
    name: string,
    qids: Option<seq<string>>,
    cids: Option<seq<string>>,
    gate: Option<string>,
    gateParam: Option<GateParam>,
    hosts: seq<string>,
    preAllocated: bool)

  // Gate names of the Operation class.
  const I: string := "I"
  const X: string := "X"
  const Y: string := "Y"
  const Z: string := "Z"
  const CNOT: string := "cnot"
  const CPHASE: string := "cphase"
  const T: string := "T"
  const H: string := "H"
  const K: string := "K"
  const RX: string := "rx"
  const RY: string := "ry"
  const RZ: string := "rz"
  const CUSTOM: string := "custom_gate"
  const CUSTOM_TWO_QUBIT: string := "custom_two_qubit_gate"
  const CUSTOM_CONTROLLED: string := "custom_controlled_gate"

  const InvalidOperation: string := "Operation is invalid"

  /**
   * The constructor as written: it accepts a name only if it is in the
   * literal (fused) name list, and otherwise raises InputError.
   */
  function NewOperationAsWritten(name: string, qids: Option<seq<string>>, cids: Option<seq<string>>,
                                 gate: Option<string>, gateParam: Option<GateParam>,
                                 hosts: seq<string>, preAllocated: bool): (r: Result<Operation>)
    ensures r.Err? <==> !IsOperationName(name)
    ensures r.Err? ==> r.error == InputError(InvalidOperation)
    ensures r.Ok? ==>
              r.value.name == name && r.value.qids == qids && r.value.cids == cids
              && r.value.gate == gate && r.value.gateParam == gateParam
              && r.value.hosts == hosts && r.value.preAllocated == preAllocated
  {
    if IsOperationName(name) then Ok(Operation(name, qids, cids, gate, gateParam, hosts, preAllocated))
    else Err(InputError(InvalidOperation))
  }

  /** The constructor checking the intended name list; the rest of the model builds operations this way. */
  function NewOperation(name: string, qids: Option<seq<string>>, cids: Option<seq<string>>,
                        gate: Option<string>, gateParam: Option<GateParam>,
                        hosts: seq<string>, preAllocated: bool): (r: Result<Operation>)
    ensures r.Err? <==> !IsIntendedOperationName(name)
    ensures r.Err? ==> r.error == InputError(InvalidOperation)
    ensures r.Ok? ==>
              r.value.name == name && r.value.qids == qids && r.value.cids == cids
              && r.value.gate == gate && r.value.gateParam == gateParam
              && r.value.hosts == hosts && r.value.preAllocated == preAllocated
  {
    if IsIntendedOperationName(name) then Ok(Operation(name, qids, cids, gate, gateParam, hosts, preAllocated))
    else Err(InputError(InvalidOperation))
  }

  /**
   * The two constructors disagree exactly on the fused pair: a classically
   * controlled gate (or a three-qubit gate) is rejected as written and
   * accepted by the intended list.
   */
  lemma {:induction false} ClassicalCtrlGateRejectedAsWritten(qids: Option<seq<string>>, cids: Option<seq<string>>,
                                                           gate: Option<string>, gateParam: Option<GateParam>,
                                                           hosts: seq<string>, preAllocated: bool)
    ensures NewOperationAsWritten(CLASSICAL_CTRL_GATE, qids, cids, gate, gateParam, hosts, preAllocated)
      == Err(InputError(InvalidOperation))
    ensures NewOperationAsWritten(THREE_QUBIT, qids, cids, gate, gateParam, hosts, preAllocated).Err?
    ensures NewOperation(CLASSICAL_CTRL_GATE, qids, cids, gate, gateParam, hosts, preAllocated).Ok?
    ensures NewOperation(THREE_QUBIT, qids, cids, gate, gateParam, hosts, preAllocated).Ok?
  {
    OperationNamesAsWritten();
  }

  const NotTwoQubitControlQubit: string := "The operation name has to be TWO_QUBIT to get the control qubit ID"
  const NotTwoQubitControlHost: string := "The operation name has to be TWO_QUBIT to get the control host"
  const NotTwoQubitTargetQubit: string := "The operation name has to be TWO_QUBIT to get the target qubit ID"
  const NotTwoQubitTargetHost: string := "The operation name has to be TWO_QUBIT to get the target host"

  /** Element k of an optional list, with Python's failures for None and a short list. */
  function Item(xs: Option<seq<string>>, k: nat): (r: Result<string>)
    ensures r.Ok? <==> xs.Some? && k < |xs.value|
    ensures r.Ok? ==> r.value == xs.value[k]
    ensures xs.None? ==> r == Err(TypeError)
  {
    match xs
    case None => Err(TypeError)
    case Some(s) => if k < |s| then Ok(s[k]) else Err(IndexError)
  }

  function ControlQubit(op: Operation): Result<string> {
    if op.name == TWO_QUBIT then Item(op.qids, 0) else Err(ValueError(NotTwoQubitControlQubit))
  }

  function TargetQubit(op: Operation): Result<string> {
    if op.name == TWO_QUBIT then Item(op.qids, 1) else Err(ValueError(NotTwoQubitTargetQubit))
  }

  function ControlHost(op: Operation): Result<string> {
    if op.name == TWO_QUBIT then Item(Some(op.hosts), 0) else Err(ValueError(NotTwoQubitControlHost))
  }

  function TargetHost(op: Operation): Result<string> {
    if op.name != TWO_QUBIT then Err(ValueError(NotTwoQubitTargetHost))
    else if |op.hosts| == 2 then Ok(op.hosts[1])
    else Item(Some(op.hosts), 0)
  }

  /** A two-qubit gate whose host list names two hosts (whether or not they differ). */
  predicate IsControlGateOverTwoHosts(op: Operation) {
    op.name == TWO_QUBIT && |op.hosts| == 2
  }

  /** Every getter fails with ValueError on an operation that is not TWO_QUBIT. */
  lemma {:induction false} GettersRequireTwoQubit(op: Operation)
    requires op.name != TWO_QUBIT
    ensures ControlQubit(op).Err? && ControlQubit(op).error.ValueError?
    ensures TargetQubit(op).Err? && TargetQubit(op).error.ValueError?
    ensures ControlHost(op).Err? && ControlHost(op).error.ValueError?
    ensures TargetHost(op).Err? && TargetHost(op).error.ValueError?
    ensures !IsControlGateOverTwoHosts(op)
  {
  }

  /**
   * The getters invert the construction of a two-qubit gate: control is the
   * first qubit and host, target the second qubit and the second host when
   * there are two, else the first.
   */
  lemma {:induction false} TwoQubitGetters(op: Operation)
    requires op.name == TWO_QUBIT
    ensures op.qids.Some? && |op.qids.value| >= 2 ==>
      ControlQubit(op) == Ok(op.qids.value[0]) && TargetQubit(op) == Ok(op.qids.value[1])
    ensures |op.hosts| >= 1 ==> ControlHost(op) == Ok(op.hosts[0])
    ensures |op.hosts| == 2 ==> TargetHost(op) == Ok(op.hosts[1])
    ensures |op.hosts| == 1 || |op.hosts| > 2 ==> TargetHost(op) == Ok(op.hosts[0])
    ensures |op.hosts| == 0 ==> ControlHost(op) == Err(IndexError) && TargetHost(op) == Err(IndexError)
    ensures IsControlGateOverTwoHosts(op) <==> |op.hosts| == 2
  {
  }

  /** A value of the dictionary form of an operation. */
  datatype Value = NoneValue | Text(s: string) | Texts(items: seq<string>) | Params(p: GateParam) | Flag(b: bool)

  const DictKeys: set<string> :=
    {"name", "qids", "cids", "gate", "gate_param", "computing_host_ids", "pre_allocated_qubits"}

  function OptTexts(xs: Option<seq<string>>): Value {
    match xs case None => NoneValue case Some(s) => Texts(s)
  }

  function OptText(x: Option<string>): Value {
    match x case None => NoneValue case Some(s) => Text(s)
  }

  function OptParams(x: Option<GateParam>): Value {
    match x case None => NoneValue case Some(p) => Params(p)
  }

  /** The seven-field dictionary sent to the computing hosts. */
  function GetDict(op: Operation): (d: map<string, Value>)
    ensures d.Keys == DictKeys
  {
    map[
      "name" := Text(op.name),
      "qids" := OptTexts(op.qids),
      "cids" := OptTexts(op.cids),
      "gate" := OptText(op.gate),
      "gate_param" := OptParams(op.gateParam),
      "computing_host_ids" := Texts(op.hosts),
      "pre_allocated_qubits" := Flag(op.preAllocated)
    ]
  }

  /** Reads an operation back from its dictionary form, failing on a malformed field. */
  function FromDict(d: map<string, Value>): Option<Operation> {
    if DictKeys <= d.Keys && d["name"].Text? && d["computing_host_ids"].Texts?
       && d["pre_allocated_qubits"].Flag?
       && (d["qids"].NoneValue? || d["qids"].Texts?)
       && (d["cids"].NoneValue? || d["cids"].Texts?)
       && (d["gate"].NoneValue? || d["gate"].Text?)
       && (d["gate_param"].NoneValue? || d["gate_param"].Params?)
    then
      Some(Operation(
        d["name"].s,
        if d["qids"].Texts? then Some(d["qids"].items) else None,
        if d["cids"].Texts? then Some(d["cids"].items) else None,
        if d["gate"].Text? then Some(d["gate"].s) else None,
        if d["gate_param"].Params? then Some(d["gate_param"].p) else None,
        d["computing_host_ids"].items,
        d["pre_allocated_qubits"].b))
    else None
  }

  /** The dictionary form loses nothing: reading it back gives the operation. */
  lemma {:induction false} DictRoundTrip(op: Operation)
    ensures FromDict(GetDict(op)) == Some(op)
  {
  }

  /** Distinct operations have distinct dictionaries. */
  lemma {:induction false} GetDictInjective(a: Operation, b: Operation)
    requires GetDict(a) == GetDict(b)
    ensures a == b
  {
    DictRoundTrip(a);
    DictRoundTrip(b);
  }

  /** Default arguments: no classical bits, no parameter, not on a pool qubit. */
  lemma {:induction false} DefaultDict(name: string, qids: seq<string>, gate: string, hosts: seq<string>)
    requires IsIntendedOperationName(name)
    ensures NewOperation(name, Some(qids), None, Some(gate), None, hosts, false).Ok?
    ensures GetDict(NewOperation(name, Some(qids), None, Some(gate), None, hosts, false).value)
      == map["name" := Text(name), "qids" := Texts(qids), "cids" := NoneValue, "gate" := Text(gate),
             "gate_param" := NoneValue, "computing_host_ids" := Texts(hosts),
             "pre_allocated_qubits" := Flag(false)]
  {
  }
}
