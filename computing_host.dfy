/**
 * The bookkeeping of a computing host (interlinq/components/computing_host.py):
 * its schedule grouped by tick, operand validation, the stores of general and
 * pre-allocated (entanglement pool) qubits with their counters, the classical
 * bits, the per-tick dispatch and the result message.
 *
 * The backend and the transport are outside the model. A qubit object is an
 * opaque QubitObj; what the backend answers for one operation (the EPR half
 * it hands over, or None when none arrived; a measurement outcome; a received
 * bit) is a Backend value supplied by the caller; the calls the host makes to
 * the backend are recorded in order as Call values.
 *
 * A Python exception that escapes a handler (IndexError on a short list,
 * KeyError on a missing bit, AttributeError on a missing qubit) ends the
 * tick's thread: the remaining operations of the tick are not run and the
 * clock gets no response. Such an outcome is Crashed; the state it carries
 * is the state at the moment of the exception.
 */
module ComputingHosts {
  import opened Wrappers
  import opened Constants
  import opened OperationTime
  import opened Operations
  import opened Controller
  import opened Clocks
  import Compiler

  /** A qubit object the backend handed to the host. */
  datatype QubitObj = QubitObj(id: string)

  /** What the backend answers for one operation. */
  datatype Backend = Backend(eprQubit: Option<QubitObj>, outcome: int, received: int)

  /** A call the host makes to the backend or the transport. */
  datatype Call =
    | Apply(gate: string, qubits: seq<string>)
    | SendEpr(receiver: string, qid: string)
    | SendBit(receiver: string, value: int)
    | MeasureQubit(qid: string)

  /** The host's state, with the two clock fields it writes. */
  datatype NodeState = NodeState(
    totalQubits: int,
    totalPreAllocated: int,
    qubits: map<string, Option<QubitObj>>,
    preAllocated: map<string, Option<QubitObj>>,
    bits: map<string, int>,
    errorMessage: Option<string>,
    stopped: bool,
    responses: nat,
    calls: seq<Call>)

  datatype Outcome = Ran(s: NodeState) | Crashed(s: NodeState, error: Error)

  function AsOutcome(s: NodeState, crash: Option<Error>): Outcome {
    if crash.None? then Ran(s) else Crashed(s, crash.value)
  }

  // Messages of the source.
  const QidsExceeded: string := "Error Message: 'Number of qubit IDs is exceeding the permissible number"
  const HostsExceeded: string := "Error Message: 'Number of computing host IDs is exceeding the permissible number"
  const CidsExceeded: string := "Error Message: 'Number of classical bit IDsis exceeding the permissible number"
  const WrongHost: string := "Error Message: 'Wrong input format for computinghost ids in the operation'"
  const NoPoolQubits: string := "No more preallocated qubits left with the computing host"
  const TooManyQubits: string := "Number of qubits required for the circuit are more than the total qubits"
  const BitMissing: string := "Bit not present in the computing host"

  /** Bits whose id is this long or longer are hidden from the results (they are uuid4 ids). */
  const ReportedIdLength: nat := 15

  function ErrorPrefix(name: string): string {
    "Error in the operation name: " + name + ". "
  }

  /** Python truthiness of an optional list: present and non-empty. */
  predicate Truthy(xs: Option<seq<string>>) {
    xs.Some? && xs.value != []
  }

  /** _report_error: the clock is stopped and the message recorded. */
  function Report(s: NodeState, msg: string): NodeState {
    s.(stopped := true, errorMessage := Some(msg))
  }

  /**
   * The message _check_errors settles on: each failing check overwrites the
   * previous one, so the last failing check wins.
   */
  function CheckMessage(self: string, op: Operation, lenQids: nat, lenHosts: nat, lenCids: nat): Option<string>
    requires op.hosts != []
  {
    var prefix := ErrorPrefix(op.name);
    var m1 := if Truthy(op.qids) && |op.qids.value| > lenQids then Some(prefix + QidsExceeded) else None;
    var m2 := if |op.hosts| > lenHosts then Some(prefix + HostsExceeded) else m1;
    var m3 := if Truthy(op.cids) && |op.cids.value| > lenCids then Some(prefix + CidsExceeded) else m2;
    if op.hosts[0] != self then Some(prefix + WrongHost) else m3
  }

  /** _check_errors: an empty host list raises IndexError; a failing check is reported. */
  function Check(s: NodeState, self: string, op: Operation, lenQids: nat, lenHosts: nat, lenCids: nat): Outcome {
    if op.hosts == [] then Crashed(s, IndexError)
    else
      match CheckMessage(self, op, lenQids, lenHosts, lenCids)
      case None => Ran(s)
      case Some(msg) => Ran(Report(s, msg))
  }

  /** _get_stored_qubit: the general store first, then the pool; None when neither has it. */
  function StoredQubit(s: NodeState, qid: string): Option<QubitObj> {
    if qid in s.qubits then s.qubits[qid]
    else if qid in s.preAllocated then s.preAllocated[qid]
    else None
  }

  /** _update_stored_qubits: a map larger than the capacity is reported, and installed anyway. */
  function InstallQubits(s: NodeState, m: map<string, Option<QubitObj>>): NodeState {
    var s1 := if |m| > s.totalQubits then Report(s, TooManyQubits) else s;
    s1.(qubits := m)
  }

  /** _add_new_qubit. */
  function StoreQubit(s: NodeState, q: Option<QubitObj>, qid: string, preAllocated: bool): NodeState {
    if preAllocated then
      var s1 := if s.totalPreAllocated > 0 then s.(totalPreAllocated := s.totalPreAllocated - 1)
                else Report(s, NoPoolQubits);
      s1.(preAllocated := s1.preAllocated[qid := q])
    else InstallQubits(s, s.qubits[qid := q])
  }

  /** The general store _prepare_qubits builds: one fresh qubit per listed id. */
  function Prepared(ids: seq<string>): map<string, Option<QubitObj>> {
    map q | q in ids :: Some(QubitObj(q))
  }

  /** _prepare_qubits: the general store becomes exactly the listed qubits (no operand check). */
  function PrepareStep(s: NodeState, op: Operation): Outcome {
    if op.qids.None? then Crashed(s, TypeError)
    else Ran(InstallQubits(s, Prepared(op.qids.value)))
  }

  /** The gate part of _process_single_gates: a listed gate is applied to the stored qubit. */
  function ApplySingle(s: NodeState, op: Operation): Outcome {
    match Item(op.qids, 0)
    case Err(e) => Crashed(s, e)
    case Ok(q) =>
      if op.gate.Some? && op.gate.value in SingleGateNames then
        if StoredQubit(s, q).None? then Crashed(s, AttributeError)
        else Ran(s.(calls := s.calls + [Apply(op.gate.value, [q])]))
      else Ran(s)
  }

  /** _process_single_gates; the operand check is skipped for the classically controlled path. */
  function SingleGateStep(s: NodeState, self: string, op: Operation, classicalCtrlGate: bool): Outcome {
    var c := if classicalCtrlGate then Ran(s) else Check(s, self, op, 1, 1, 0);
    if c.Crashed? then c else ApplySingle(c.s, op)
  }

  /** _process_two_qubit_gates. */
  function TwoQubitStep(s: NodeState, self: string, op: Operation): Outcome {
    var c := Check(s, self, op, 2, 1, 0);
    if c.Crashed? then c
    else
      var s1 := c.s;
      match Item(op.qids, 0)
      case Err(e) => Crashed(s1, e)
      case Ok(q1) =>
        match Item(op.qids, 1)
        case Err(e) => Crashed(s1, e)
        case Ok(q2) =>
          if op.gate.Some? && op.gate.value in TwoQubitGateNames then
            if StoredQubit(s1, q1).None? then Crashed(s1, AttributeError)
            else Ran(s1.(calls := s1.calls + [Apply(op.gate.value, [q1, q2])]))
          else Ran(s1)
  }

  /** _process_classical_ctrl_gates: the gate runs only when the stored control bit is nonzero. */
  function ClassicalCtrlStep(s: NodeState, self: string, op: Operation): Outcome {
    var c := Check(s, self, op, 1, 1, 1);
    if c.Crashed? then c
    else
      var s1 := c.s;
      match Item(op.cids, 0)
      case Err(e) => Crashed(s1, e)
      case Ok(b) =>
        if b !in s1.bits then Crashed(s1, KeyError)
        else if s1.bits[b] != 0 then SingleGateStep(s1, self, op, true)
        else Ran(s1)
  }

  /** _process_send_ent: one half goes to the peer, the other is stored under the qubit id. */
  function SendEntStep(s: NodeState, self: string, op: Operation, b: Backend): Outcome {
    var c := Check(s, self, op, 1, 2, 0);
    if c.Crashed? then c
    else
      var s1 := c.s;
      match Item(op.qids, 0)
      case Err(e) => Crashed(s1, e)
      case Ok(q) =>
        match Item(Some(op.hosts), 1)
        case Err(e) => Crashed(s1, e)
        case Ok(receiver) =>
          var s2 := s1.(calls := s1.calls + [SendEpr(receiver, q)]);
          Ran(StoreQubit(s2, b.eprQubit, q, op.preAllocated))
  }

  /**
   * _process_rec_ent: the half that arrived within the polling budget (or
   * None) is stored under the qubit id.
   */
  function RecEntStep(s: NodeState, self: string, op: Operation, b: Backend): Outcome {
    var c := Check(s, self, op, 1, 2, 0);
    if c.Crashed? then c
    else
      var s1 := c.s;
      match Item(op.qids, 0)
      case Err(e) => Crashed(s1, e)
      case Ok(q) =>
        match Item(Some(op.hosts), 1)
        case Err(e) => Crashed(s1, e)
        case Ok(_) => Ran(StoreQubit(s1, b.eprQubit, q, op.preAllocated))
  }

  /**
   * _process_send_classical: a missing bit is reported, and then reading it
   * raises KeyError.
   */
  function SendClassicalStep(s: NodeState, self: string, op: Operation): Outcome {
    var c := Check(s, self, op, 0, 2, 1);
    if c.Crashed? then c
    else
      var s1 := c.s;
      match Item(op.cids, 0)
      case Err(e) => Crashed(s1, e)
      case Ok(bitId) =>
        var s2 := if bitId !in s1.bits then Report(s1, BitMissing) else s1;
        match Item(Some(op.hosts), 1)
        case Err(e) => Crashed(s2, e)
        case Ok(receiver) =>
          if bitId !in s2.bits then Crashed(s2, KeyError)
          else Ran(s2.(calls := s2.calls + [SendBit(receiver, s2.bits[bitId])]))
  }

  /** _process_rec_classical: the received value is stored under the first bit id. */
  function RecClassicalStep(s: NodeState, self: string, op: Operation, b: Backend): Outcome {
    var c := Check(s, self, op, 0, 2, 1);
    if c.Crashed? then c
    else
      var s1 := c.s;
      match Item(Some(op.hosts), 1)
      case Err(e) => Crashed(s1, e)
      case Ok(_) =>
        match Item(op.cids, 0)
        case Err(e) => Crashed(s1, e)
        case Ok(bitId) => Ran(s1.(bits := s1.bits[bitId := b.received]))
  }

  /**
   * _process_measurement: the outcome is stored under the bit id and the
   * qubit is released, to the pool when it was a pool qubit, else from the
   * general store with the capacity counter lowered.
   */
  function MeasureStep(s: NodeState, self: string, op: Operation, b: Backend): Outcome {
    var c := Check(s, self, op, 1, 1, 1);
    if c.Crashed? then c
    else
      var s1 := c.s;
      match Item(op.qids, 0)
      case Err(e) => Crashed(s1, e)
      case Ok(q) =>
        match Item(op.cids, 0)
        case Err(e) => Crashed(s1, e)
        case Ok(bitId) =>
          if StoredQubit(s1, q).None? then Crashed(s1, AttributeError)
          else
            var s2 := s1.(calls := s1.calls + [MeasureQubit(q)], bits := s1.bits[bitId := b.outcome]);
            if q in s2.preAllocated then
              Ran(s2.(preAllocated := s2.preAllocated - {q}, totalPreAllocated := s2.totalPreAllocated + 1))
            else
              Ran(s2.(qubits := s2.qubits - {q}, totalQubits := s2.totalQubits - 1))
  }

  /** The names perform_schedule dispatches on. */
  const Dispatched: set<string> :=
    {PREPARE_QUBITS, SINGLE, TWO_QUBIT, CLASSICAL_CTRL_GATE, SEND_ENT, REC_ENT, SEND_CLASSICAL, REC_CLASSICAL, MEASURE}

  /** One operation of perform_schedule; a name it does not know is ignored. */
  function Step(s: NodeState, self: string, op: Operation, b: Backend): Outcome {
    if op.name == PREPARE_QUBITS then PrepareStep(s, op)
    else if op.name == SINGLE then SingleGateStep(s, self, op, false)
    else if op.name == TWO_QUBIT then TwoQubitStep(s, self, op)
    else if op.name == CLASSICAL_CTRL_GATE then ClassicalCtrlStep(s, self, op)
    else if op.name == SEND_ENT then SendEntStep(s, self, op, b)
    else if op.name == REC_ENT then RecEntStep(s, self, op, b)
    else if op.name == SEND_CLASSICAL then SendClassicalStep(s, self, op)
    else if op.name == REC_CLASSICAL then RecClassicalStep(s, self, op, b)
    else if op.name == MEASURE then MeasureStep(s, self, op, b)
    else Ran(s)
  }

  /** The operations ops[j..] run in order; the first crash ends the run. */
  function RunOps(s: NodeState, self: string, ops: seq<ScheduledOp>, env: nat -> Backend, j: nat): Outcome
    decreases |ops| - j
  {
    if j >= |ops| then Ran(s)
    else
      var o := Step(s, self, ops[j].op, env(j));
      if o.Crashed? then o else RunOps(o.s, self, ops, env, j + 1)
  }

  /**
   * perform_schedule: the operations stored under the tick run in order,
   * then the clock gets one response; a crash skips the response.
   */
  function TickStep(s: NodeState, self: string, schedule: map<nat, seq<ScheduledOp>>, tick: nat,
                    env: nat -> Backend): Outcome
  {
    var o := if tick in schedule then RunOps(s, self, schedule[tick], env, 0) else Ran(s);
    if o.Crashed? then o else Ran(o.s.(responses := o.s.responses + 1))
  }

  /** The grouping loop of receive_schedule: each entry is appended to the list of its tick. */
  function Group(entries: seq<ScheduledOp>): map<nat, seq<ScheduledOp>> {
    if entries == [] then map[]
    else
      var g := Group(entries[..|entries| - 1]);
      var e := entries[|entries| - 1];
      g[e.layerEnd := (if e.layerEnd in g then g[e.layerEnd] else []) + [e]]
  }

  /** The entries stamped with tick t, in schedule order. */
  function AtTick(entries: seq<ScheduledOp>, t: nat): seq<ScheduledOp> {
    if entries == [] then []
    else
      var e := entries[|entries| - 1];
      AtTick(entries[..|entries| - 1], t) + (if e.layerEnd == t then [e] else [])
  }

  /** The bits property: only ids shorter than 15 characters are reported. */
  function ReportedBits(bits: map<string, int>): map<string, int> {
    map k | k in bits && |k| < ReportedIdLength :: bits[k]
  }

  /** The message send_results sends to the controller. */
  datatype ResultMessage = ErrorResult(message: string) | BitsResult(bits: map<string, int>)

  // ---------------------------------------------------------------------------
  // The host object.

  class ComputingHost {
    const hostId: string
    const controllerHostId: string
    const clock: Clock
    var totalQubits: int
    var totalPreAllocated: int
    var qubits: map<string, Option<QubitObj>>
    var preAllocated: map<string, Option<QubitObj>>
    var bits: map<string, int>
    var errorMessage: Option<string>
    var schedule: map<nat, seq<ScheduledOp>>
    var calls: seq<Call>

    /** The host's bookkeeping, with the clock fields it writes. */
    function State(): NodeState
      reads this, clock
    {
      NodeState(totalQubits, totalPreAllocated, qubits, preAllocated, bits, errorMessage,
                clock.stop, clock.response, calls)
    }

    /** The source's defaults are totalQubits 0 and totalPreAllocated 1. */
    constructor (hostId: string, controllerHostId: string, clock: Clock, totalQubits: int, totalPreAllocated: int)
      ensures this.hostId == hostId && this.controllerHostId == controllerHostId && this.clock == clock
      ensures State() == NodeState(totalQubits, totalPreAllocated, map[], map[], map[], None,
                                   clock.stop, clock.response, [])
      ensures schedule == map[]
    {
      this.hostId := hostId;
      this.controllerHostId := controllerHostId;
      this.clock := clock;
      this.totalQubits := totalQubits;
      this.totalPreAllocated := totalPreAllocated;
      qubits := map[];
      preAllocated := map[];
      bits := map[];
      errorMessage := None;
      schedule := map[];
      calls := [];
    }

    method UpdateTotalQubits(total: int)
      modifies this
      ensures State() == old(State()).(totalQubits := total) && schedule == old(schedule)
    {
      totalQubits := total;
    }

    /**
     * receive_schedule once the broadcast is decoded: this host's entries
     * grouped by tick; no entry for this host gives an empty schedule.
     */
    method ReceiveSchedule(schedules: map<string, seq<ScheduledOp>>)
      modifies this
      ensures schedule == if hostId in schedules then Group(schedules[hostId]) else map[]
      ensures State() == old(State())
    {
      var grouped: map<nat, seq<ScheduledOp>> := map[];
      if hostId in schedules {
        var entries := schedules[hostId];
        for i := 0 to |entries|
          invariant grouped == Group(entries[..i])
        {
          var e := entries[i];
          assert entries[..i + 1][..i] == entries[..i] && entries[..i + 1][i] == e;
          assert Group(entries[..i + 1]) ==
            Group(entries[..i])[e.layerEnd := (if e.layerEnd in Group(entries[..i]) then Group(entries[..i])[e.layerEnd] else []) + [e]];
          if e.layerEnd in grouped {
            grouped := grouped[e.layerEnd := grouped[e.layerEnd] + [e]];
          } else {
            assert [] + [e] == [e];
            grouped := grouped[e.layerEnd := [e]];
          }
        }
        assert entries[..|entries|] == entries;
      }
      schedule := grouped;
    }

    method ReportError(msg: string)
      modifies this, clock
      ensures State() == Report(old(State()), msg) && schedule == old(schedule)
    {
      clock.StopClock();
      errorMessage := Some(msg);
    }

    method CheckErrors(op: Operation, lenQids: nat, lenHosts: nat, lenCids: nat) returns (crash: Option<Error>)
      modifies this, clock
      ensures AsOutcome(State(), crash) == Check(old(State()), hostId, op, lenQids, lenHosts, lenCids)
      ensures schedule == old(schedule)
    {
      var msg: Option<string> := None;
      var prefix := ErrorPrefix(op.name);
      if Truthy(op.qids) && |op.qids.value| > lenQids {
        msg := Some(prefix + QidsExceeded);
      }
      if |op.hosts| > lenHosts {
        msg := Some(prefix + HostsExceeded);
      }
      if Truthy(op.cids) && |op.cids.value| > lenCids {
        msg := Some(prefix + CidsExceeded);
      }
      if op.hosts == [] {
        return Some(IndexError);
      }
      if op.hosts[0] != hostId {
        msg := Some(prefix + WrongHost);
      }
      if msg.Some? {
        ReportError(msg.value);
      }
      return None;
    }

    method UpdateStoredQubits(m: map<string, Option<QubitObj>>)
      modifies this, clock
      ensures State() == InstallQubits(old(State()), m) && schedule == old(schedule)
    {
      if |m| > totalQubits {
        ReportError(TooManyQubits);
      }
      qubits := m;
    }

    method AddNewQubit(q: Option<QubitObj>, qid: string, pre: bool)
      modifies this, clock
      ensures State() == StoreQubit(old(State()), q, qid, pre) && schedule == old(schedule)
    {
      if pre {
        if totalPreAllocated > 0 {
          totalPreAllocated := totalPreAllocated - 1;
        } else {
          ReportError(NoPoolQubits);
        }
        preAllocated := preAllocated[qid := q];
      } else {
        UpdateStoredQubits(qubits[qid := q]);
      }
    }

    method PrepareQubits(op: Operation) returns (crash: Option<Error>)
      modifies this, clock
      ensures AsOutcome(State(), crash) == PrepareStep(old(State()), op) && schedule == old(schedule)
    {
      if op.qids.None? {
        return Some(TypeError);
      }
      var ids := op.qids.value;
      var m: map<string, Option<QubitObj>> := map[];
      for i := 0 to |ids|
        invariant m == Prepared(ids[..i])
      {
        assert ids[..i + 1] == ids[..i] + [ids[i]];
        m := m[ids[i] := Some(QubitObj(ids[i]))];
      }
      assert ids[..|ids|] == ids;
      UpdateStoredQubits(m);
      return None;
    }

    method ProcessSingleGates(op: Operation, classicalCtrlGate: bool) returns (crash: Option<Error>)
      modifies this, clock
      ensures AsOutcome(State(), crash) == SingleGateStep(old(State()), hostId, op, classicalCtrlGate)
      ensures schedule == old(schedule)
    {
      if !classicalCtrlGate {
        crash := CheckErrors(op, 1, 1, 0);
        if crash.Some? {
          return;
        }
      }
      var qid := Item(op.qids, 0);
      if qid.Err? {
        return Some(qid.error);
      }
      var qubit := StoredQubit(State(), qid.value);
      if op.gate.Some? && op.gate.value in SingleGateNames {
        if qubit.None? {
          return Some(AttributeError);
        }
        calls := calls + [Apply(op.gate.value, [qid.value])];
      }
      return None;
    }

    method ProcessTwoQubitGates(op: Operation) returns (crash: Option<Error>)
      modifies this, clock
      ensures AsOutcome(State(), crash) == TwoQubitStep(old(State()), hostId, op) && schedule == old(schedule)
    {
      crash := CheckErrors(op, 2, 1, 0);
      if crash.Some? {
        return;
      }
      var q1 := Item(op.qids, 0);
      if q1.Err? {
        return Some(q1.error);
      }
      var q2 := Item(op.qids, 1);
      if q2.Err? {
        return Some(q2.error);
      }
      var qubit1 := StoredQubit(State(), q1.value);
      if op.gate.Some? && op.gate.value in TwoQubitGateNames {
        if qubit1.None? {
          return Some(AttributeError);
        }
        calls := calls + [Apply(op.gate.value, [q1.value, q2.value])];
      }
      return None;
    }

    method ProcessClassicalCtrlGates(op: Operation) returns (crash: Option<Error>)
      modifies this, clock
      ensures AsOutcome(State(), crash) == ClassicalCtrlStep(old(State()), hostId, op) && schedule == old(schedule)
    {
      crash := CheckErrors(op, 1, 1, 1);
      if crash.Some? {
        return;
      }
      var bitId := Item(op.cids, 0);
      if bitId.Err? {
        return Some(bitId.error);
      }
      if bitId.value !in bits {
        return Some(KeyError);
      }
      if bits[bitId.value] != 0 {
        crash := ProcessSingleGates(op, true);
      }
    }

    method ProcessSendEnt(op: Operation, b: Backend) returns (crash: Option<Error>)
      modifies this, clock
      ensures AsOutcome(State(), crash) == SendEntStep(old(State()), hostId, op, b) && schedule == old(schedule)
    {
      crash := CheckErrors(op, 1, 2, 0);
      if crash.Some? {
        return;
      }
      var qid := Item(op.qids, 0);
      if qid.Err? {
        return Some(qid.error);
      }
      var receiver := Item(Some(op.hosts), 1);
      if receiver.Err? {
        return Some(receiver.error);
      }
      calls := calls + [SendEpr(receiver.value, qid.value)];
      AddNewQubit(b.eprQubit, qid.value, op.preAllocated);
    }

    method ProcessRecEnt(op: Operation, b: Backend) returns (crash: Option<Error>)
      modifies this, clock
      ensures AsOutcome(State(), crash) == RecEntStep(old(State()), hostId, op, b) && schedule == old(schedule)
    {
      crash := CheckErrors(op, 1, 2, 0);
      if crash.Some? {
        return;
      }
      var qid := Item(op.qids, 0);
      if qid.Err? {
        return Some(qid.error);
      }
      var sender := Item(Some(op.hosts), 1);
      if sender.Err? {
        return Some(sender.error);
      }
      AddNewQubit(b.eprQubit, qid.value, op.preAllocated);
    }

    method ProcessSendClassical(op: Operation) returns (crash: Option<Error>)
      modifies this, clock
      ensures AsOutcome(State(), crash) == SendClassicalStep(old(State()), hostId, op) && schedule == old(schedule)
    {
      crash := CheckErrors(op, 0, 2, 1);
      if crash.Some? {
        return;
      }
      var bitId := Item(op.cids, 0);
      if bitId.Err? {
        return Some(bitId.error);
      }
      if bitId.value !in bits {
        ReportError(BitMissing);
      }
      var receiver := Item(Some(op.hosts), 1);
      if receiver.Err? {
        return Some(receiver.error);
      }
      if bitId.value !in bits {
        return Some(KeyError);
      }
      calls := calls + [SendBit(receiver.value, bits[bitId.value])];
    }

    method ProcessRecClassical(op: Operation, b: Backend) returns (crash: Option<Error>)
      modifies this, clock
      ensures AsOutcome(State(), crash) == RecClassicalStep(old(State()), hostId, op, b) && schedule == old(schedule)
    {
      crash := CheckErrors(op, 0, 2, 1);
      if crash.Some? {
        return;
      }
      var sender := Item(Some(op.hosts), 1);
      if sender.Err? {
        return Some(sender.error);
      }
      var bitId := Item(op.cids, 0);
      if bitId.Err? {
        return Some(bitId.error);
      }
      bits := bits[bitId.value := b.received];
    }

    method ProcessMeasurement(op: Operation, b: Backend) returns (crash: Option<Error>)
      modifies this, clock
      ensures AsOutcome(State(), crash) == MeasureStep(old(State()), hostId, op, b) && schedule == old(schedule)
    {
      crash := CheckErrors(op, 1, 1, 1);
      if crash.Some? {
        return;
      }
      var qid := Item(op.qids, 0);
      if qid.Err? {
        return Some(qid.error);
      }
      var bitId := Item(op.cids, 0);
      if bitId.Err? {
        return Some(bitId.error);
      }
      var qubit := StoredQubit(State(), qid.value);
      if qubit.None? {
        return Some(AttributeError);
      }
      calls := calls + [MeasureQubit(qid.value)];
      bits := bits[bitId.value := b.outcome];
      if qid.value in preAllocated {
        preAllocated := preAllocated - {qid.value};
        totalPreAllocated := totalPreAllocated + 1;
      } else {
        qubits := qubits - {qid.value};
        totalQubits := totalQubits - 1;
      }
    }

    /** One operation of perform_schedule, dispatched on its name. */
    method Dispatch(op: Operation, b: Backend) returns (crash: Option<Error>)
      modifies this, clock
      ensures AsOutcome(State(), crash) == Step(old(State()), hostId, op, b) && schedule == old(schedule)
    {
      crash := None;
      if op.name == PREPARE_QUBITS {
        crash := PrepareQubits(op);
      } else if op.name == SINGLE {
        crash := ProcessSingleGates(op, false);
      } else if op.name == TWO_QUBIT {
        crash := ProcessTwoQubitGates(op);
      } else if op.name == CLASSICAL_CTRL_GATE {
        crash := ProcessClassicalCtrlGates(op);
      } else if op.name == SEND_ENT {
        crash := ProcessSendEnt(op, b);
      } else if op.name == REC_ENT {
        crash := ProcessRecEnt(op, b);
      } else if op.name == SEND_CLASSICAL {
        crash := ProcessSendClassical(op);
      } else if op.name == REC_CLASSICAL {
        crash := ProcessRecClassical(op, b);
      } else if op.name == MEASURE {
        crash := ProcessMeasurement(op, b);
      }
    }

    /** The operations stored under the tick, in order, then one response to the clock. */
    method PerformSchedule(ticks: nat, env: nat -> Backend) returns (crash: Option<Error>)
      modifies this, clock
      ensures AsOutcome(State(), crash) == TickStep(old(State()), hostId, old(schedule), ticks, env)
      ensures schedule == old(schedule)
    {
      if ticks in schedule {
        var ops := schedule[ticks];
        var i := 0;
        while i < |ops|
          invariant 0 <= i <= |ops|
          invariant schedule == old(schedule)
          invariant RunOps(State(), hostId, ops, env, i) == RunOps(old(State()), hostId, ops, env, 0)
        {
          ghost var before := State();
          crash := Dispatch(ops[i].op, env(i));
          if crash.Some? {
            assert RunOps(before, hostId, ops, env, i) == Crashed(State(), crash.value);
            return;
          }
          i := i + 1;
        }
      }
      clock.Respond();
      crash := None;
    }

    /** The bits property, a loop over the stored bits. */
    method Bits() returns (r: map<string, int>)
      ensures r == ReportedBits(bits)
      ensures forall k :: k in r ==> |k| < ReportedIdLength && k in bits && r[k] == bits[k]
    {
      r := map[];
      var rest := bits.Keys;
      while rest != {}
        invariant rest <= bits.Keys
        invariant r == map k | k in bits.Keys - rest && |k| < ReportedIdLength :: bits[k]
        decreases rest
      {
        var k :| k in rest;
        if |k| < ReportedIdLength {
          r := r[k := bits[k]];
        }
        rest := rest - {k};
      }
      assert bits.Keys - rest == bits.Keys;
    }

    /** The message of send_results, once the clock has stopped. */
    method SendResults() returns (msg: ResultMessage)
      ensures msg.ErrorResult? <==> errorMessage.Some? && errorMessage.value != ""
      ensures msg.ErrorResult? ==> msg.message == errorMessage.value
      ensures msg.BitsResult? ==> msg.bits == ReportedBits(bits)
    {
      if errorMessage.Some? && errorMessage.value != "" {
        msg := ErrorResult(errorMessage.value);
      } else {
        var reported := Bits();
        msg := BitsResult(reported);
      }
    }
  }

  // ---------------------------------------------------------------------------
  // Properties.

  /**
   * _check_errors flags an operation exactly when one of its four checks
   * fails, and the message is that of the last failing check.
   */
  lemma CheckMessageCases(self: string, op: Operation, lenQids: nat, lenHosts: nat, lenCids: nat)
    requires op.hosts != []
    ensures CheckMessage(self, op, lenQids, lenHosts, lenCids).None? <==>
      op.hosts[0] == self && !(Truthy(op.qids) && |op.qids.value| > lenQids)
      && |op.hosts| <= lenHosts && !(Truthy(op.cids) && |op.cids.value| > lenCids)
    ensures op.hosts[0] != self ==>
      CheckMessage(self, op, lenQids, lenHosts, lenCids) == Some(ErrorPrefix(op.name) + WrongHost)
    ensures op.hosts[0] == self && Truthy(op.cids) && |op.cids.value| > lenCids ==>
      CheckMessage(self, op, lenQids, lenHosts, lenCids) == Some(ErrorPrefix(op.name) + CidsExceeded)
    ensures op.hosts[0] == self && !(Truthy(op.cids) && |op.cids.value| > lenCids) && |op.hosts| > lenHosts ==>
      CheckMessage(self, op, lenQids, lenHosts, lenCids) == Some(ErrorPrefix(op.name) + HostsExceeded)
  {
  }

  /**
   * A failing check does not stop the handler: it only stops the clock and
   * records the message; only an empty host list raises.
   */
  lemma CheckOutcome(s: NodeState, self: string, op: Operation, lenQids: nat, lenHosts: nat, lenCids: nat)
    ensures Check(s, self, op, lenQids, lenHosts, lenCids).Crashed? <==> op.hosts == []
    ensures op.hosts != [] ==>
      Check(s, self, op, lenQids, lenHosts, lenCids).s ==
        (if CheckMessage(self, op, lenQids, lenHosts, lenCids).None? then s
         else s.(stopped := true, errorMessage := CheckMessage(self, op, lenQids, lenHosts, lenCids)))
  {
  }

  /**
   * A measurement on a wrong host is still carried out: the error is
   * recorded and the clock stopped, and the outcome is stored as well.
   */
  lemma MeasurementAfterReport(s: NodeState, self: string, op: Operation, b: Backend)
    requires op.name == MEASURE && op.hosts != [] && op.hosts[0] != self
    requires op.qids.Some? && op.qids.value != [] && op.cids.Some? && op.cids.value != []
    requires StoredQubit(s, op.qids.value[0]).Some?
    ensures MeasureStep(s, self, op, b).Ran?
    ensures MeasureStep(s, self, op, b).s.errorMessage == Some(ErrorPrefix(MEASURE) + WrongHost)
    ensures MeasureStep(s, self, op, b).s.stopped
    ensures MeasureStep(s, self, op, b).s.bits == s.bits[op.cids.value[0] := b.outcome]
  {
    CheckMessageCases(self, op, 1, 1, 1);
    var r := Report(s, ErrorPrefix(MEASURE) + WrongHost);
    assert Check(s, self, op, 1, 1, 1) == Ran(r);
    assert StoredQubit(r, op.qids.value[0]) == StoredQubit(s, op.qids.value[0]);
  }

  /**
   * A pool qubit is stored either way; the pool counter goes down when it is
   * positive, and otherwise the shortage is reported.
   */
  lemma StoreQubitPool(s: NodeState, q: Option<QubitObj>, qid: string)
    ensures StoreQubit(s, q, qid, true).preAllocated == s.preAllocated[qid := q]
    ensures StoreQubit(s, q, qid, true).qubits == s.qubits
    ensures s.totalPreAllocated > 0 ==>
      StoreQubit(s, q, qid, true) == s.(totalPreAllocated := s.totalPreAllocated - 1, preAllocated := s.preAllocated[qid := q])
    ensures s.totalPreAllocated <= 0 ==>
      StoreQubit(s, q, qid, true) == s.(preAllocated := s.preAllocated[qid := q], stopped := true, errorMessage := Some(NoPoolQubits))
  {
  }

  /**
   * A general qubit joins the general store, which is installed even when it
   * exceeds the capacity; exceeding it is reported.
   */
  lemma StoreQubitGeneral(s: NodeState, q: Option<QubitObj>, qid: string)
    ensures StoreQubit(s, q, qid, false).qubits == s.qubits[qid := q]
    ensures StoreQubit(s, q, qid, false).preAllocated == s.preAllocated
    ensures StoreQubit(s, q, qid, false).totalQubits == s.totalQubits
    ensures StoreQubit(s, q, qid, false).errorMessage ==
      (if |s.qubits[qid := q]| > s.totalQubits then Some(TooManyQubits) else s.errorMessage)
  {
  }

  /** A stored qubit is found in the general store before the pool. */
  lemma StoredQubitLookup(s: NodeState, qid: string)
    ensures StoredQubit(s, qid).Some? ==> qid in s.qubits || qid in s.preAllocated
    ensures qid in s.qubits ==> StoredQubit(s, qid) == s.qubits[qid]
    ensures qid !in s.qubits && qid in s.preAllocated ==> StoredQubit(s, qid) == s.preAllocated[qid]
  {
  }

  lemma {:induction false} PreparedKeys(ids: seq<string>)
    ensures Prepared(ids).Keys == set q | q in ids
    ensures forall q :: q in Prepared(ids) ==> Prepared(ids)[q] == Some(QubitObj(q))
  {
  }

  /**
   * Preparing replaces the general store by exactly the listed qubits, and
   * reports when there are more distinct ids than the capacity.
   */
  lemma PrepareReplaces(s: NodeState, op: Operation)
    requires op.qids.Some?
    ensures PrepareStep(s, op).Ran?
    ensures PrepareStep(s, op).s.qubits.Keys == set q | q in op.qids.value
    ensures forall q :: q in op.qids.value ==> PrepareStep(s, op).s.qubits[q] == Some(QubitObj(q))
    ensures PrepareStep(s, op).s.preAllocated == s.preAllocated && PrepareStep(s, op).s.bits == s.bits
    ensures PrepareStep(s, op).s.errorMessage ==
      (if |set q | q in op.qids.value| > s.totalQubits then Some(TooManyQubits) else s.errorMessage)
  {
    PreparedKeys(op.qids.value);
    assert |Prepared(op.qids.value)| == |Prepared(op.qids.value).Keys|;
  }

  /** The operation of a well-formed classically controlled gate on this host. */
  predicate WellFormedCtrl(self: string, op: Operation) {
    op.name == CLASSICAL_CTRL_GATE && op.hosts == [self]
    && op.qids.Some? && |op.qids.value| == 1 && op.cids.Some? && |op.cids.value| == 1
  }

  /**
   * A classically controlled gate is applied exactly when the stored control
   * bit is nonzero; a missing bit raises KeyError.
   */
  lemma ClassicalCtrlGated(s: NodeState, self: string, op: Operation)
    requires WellFormedCtrl(self, op)
    requires op.gate.Some? && op.gate.value in SingleGateNames
    requires StoredQubit(s, op.qids.value[0]).Some?
    ensures op.cids.value[0] !in s.bits ==> ClassicalCtrlStep(s, self, op) == Crashed(s, KeyError)
    ensures op.cids.value[0] in s.bits ==>
      ClassicalCtrlStep(s, self, op) ==
        if s.bits[op.cids.value[0]] != 0 then Ran(s.(calls := s.calls + [Apply(op.gate.value, [op.qids.value[0]])]))
        else Ran(s)
  {
    CheckMessageCases(self, op, 1, 1, 1);
  }

  /** The received bit value is stored under the first bit id. */
  lemma RecClassicalStores(s: NodeState, self: string, op: Operation, b: Backend)
    requires op.hosts != [] && |op.hosts| >= 2 && op.cids.Some? && op.cids.value != []
    ensures RecClassicalStep(s, self, op, b).Ran?
    ensures RecClassicalStep(s, self, op, b).s.bits == s.bits[op.cids.value[0] := b.received]
    ensures RecClassicalStep(s, self, op, b).s.calls == s.calls
  {
  }

  /**
   * Sending a bit the host does not hold reports the fact and then raises
   * KeyError; a held bit is sent with its value.
   */
  lemma SendClassicalBit(s: NodeState, self: string, op: Operation)
    requires |op.hosts| >= 2 && op.cids.Some? && op.cids.value != []
    ensures op.cids.value[0] !in s.bits ==>
      SendClassicalStep(s, self, op).Crashed? && SendClassicalStep(s, self, op).error == KeyError
      && SendClassicalStep(s, self, op).s.errorMessage == Some(BitMissing)
    ensures op.cids.value[0] in s.bits ==>
      SendClassicalStep(s, self, op).Ran?
      && SendClassicalStep(s, self, op).s.calls == s.calls + [SendBit(op.hosts[1], s.bits[op.cids.value[0]])]
  {
  }

  /**
   * A measurement stores the outcome and releases the qubit: a pool qubit
   * goes back to the pool, whose counter rises by one; a general qubit leaves
   * the general store and the capacity falls by one.
   */
  lemma MeasureAccounting(s: NodeState, self: string, op: Operation, b: Backend)
    requires op.hosts == [self] && op.qids.Some? && |op.qids.value| == 1 && op.cids.Some? && |op.cids.value| == 1
    requires StoredQubit(s, op.qids.value[0]).Some?
    ensures MeasureStep(s, self, op, b).Ran?
    ensures MeasureStep(s, self, op, b).s.bits == s.bits[op.cids.value[0] := b.outcome]
    ensures MeasureStep(s, self, op, b).s.errorMessage == s.errorMessage
    ensures op.qids.value[0] in s.preAllocated ==>
      MeasureStep(s, self, op, b).s.preAllocated == s.preAllocated - {op.qids.value[0]}
      && MeasureStep(s, self, op, b).s.totalPreAllocated == s.totalPreAllocated + 1
      && MeasureStep(s, self, op, b).s.qubits == s.qubits
      && MeasureStep(s, self, op, b).s.totalQubits == s.totalQubits
    ensures op.qids.value[0] !in s.preAllocated ==>
      MeasureStep(s, self, op, b).s.qubits == s.qubits - {op.qids.value[0]}
      && MeasureStep(s, self, op, b).s.totalQubits == s.totalQubits - 1
      && MeasureStep(s, self, op, b).s.preAllocated == s.preAllocated
  {
    CheckMessageCases(self, op, 1, 1, 1);
  }

  /** Measuring a qubit the host does not hold raises AttributeError. */
  lemma MeasureMissingQubit(s: NodeState, self: string, op: Operation, b: Backend)
    requires op.hosts != [] && op.qids.Some? && op.qids.value != [] && op.cids.Some? && op.cids.value != []
    requires op.qids.value[0] !in s.qubits && op.qids.value[0] !in s.preAllocated
    ensures MeasureStep(s, self, op, b).Crashed? && MeasureStep(s, self, op, b).error == AttributeError
  {
  }

  /** perform_schedule ignores an operation whose name it does not dispatch on. */
  lemma UnknownNameIgnored(s: NodeState, self: string, op: Operation, b: Backend)
    requires op.name !in Dispatched
    ensures Step(s, self, op, b) == Ran(s)
  {
  }

  /** A state where a recorded error always comes with a stopped clock. */
  predicate ErrorStops(s: NodeState) {
    s.errorMessage.Some? ==> s.stopped
  }

  /**
   * What running operations never undoes: the response count is untouched,
   * a stopped clock stays stopped, a recorded error stays recorded, the
   * backend calls only grow, and an error keeps the clock stopped.
   */
  predicate Grows(s: NodeState, t: NodeState) {
    t.responses == s.responses && (s.stopped ==> t.stopped)
    && (s.errorMessage.Some? ==> t.errorMessage.Some?) && s.calls <= t.calls
    && (ErrorStops(s) ==> ErrorStops(t))
  }

  lemma GrowsTransitive(a: NodeState, b: NodeState, c: NodeState)
    requires Grows(a, b) && Grows(b, c)
    ensures Grows(a, c)
  {
  }

  lemma CheckGrows(s: NodeState, self: string, op: Operation, lenQids: nat, lenHosts: nat, lenCids: nat)
    ensures Grows(s, Check(s, self, op, lenQids, lenHosts, lenCids).s)
  {
  }

  lemma StoreGrows(s: NodeState, q: Option<QubitObj>, qid: string, pre: bool)
    ensures Grows(s, StoreQubit(s, q, qid, pre))
  {
  }

  lemma SingleGrows(s: NodeState, self: string, op: Operation, classicalCtrlGate: bool)
    ensures Grows(s, SingleGateStep(s, self, op, classicalCtrlGate).s)
  {
    CheckGrows(s, self, op, 1, 1, 0);
  }

  lemma TwoQubitGrows(s: NodeState, self: string, op: Operation)
    ensures Grows(s, TwoQubitStep(s, self, op).s)
  {
    CheckGrows(s, self, op, 2, 1, 0);
  }

  lemma CtrlGrows(s: NodeState, self: string, op: Operation)
    ensures Grows(s, ClassicalCtrlStep(s, self, op).s)
  {
    var c := Check(s, self, op, 1, 1, 1);
    CheckGrows(s, self, op, 1, 1, 1);
    if !c.Crashed? {
      SingleGrows(c.s, self, op, true);
    }
  }

  lemma EntGrows(s: NodeState, self: string, op: Operation, b: Backend)
    ensures Grows(s, SendEntStep(s, self, op, b).s) && Grows(s, RecEntStep(s, self, op, b).s)
  {
    var c := Check(s, self, op, 1, 2, 0);
    CheckGrows(s, self, op, 1, 2, 0);
    if !c.Crashed? && op.qids.Some? && op.qids.value != [] && |op.hosts| >= 2 {
      var q := op.qids.value[0];
      var s2 := c.s.(calls := c.s.calls + [SendEpr(op.hosts[1], q)]);
      StoreGrows(s2, b.eprQubit, q, op.preAllocated);
      StoreGrows(c.s, b.eprQubit, q, op.preAllocated);
    }
  }

  lemma ClassicalGrows(s: NodeState, self: string, op: Operation, b: Backend)
    ensures Grows(s, SendClassicalStep(s, self, op).s) && Grows(s, RecClassicalStep(s, self, op, b).s)
  {
    CheckGrows(s, self, op, 0, 2, 1);
  }

  lemma MeasureGrows(s: NodeState, self: string, op: Operation, b: Backend)
    ensures Grows(s, MeasureStep(s, self, op, b).s)
  {
    CheckGrows(s, self, op, 1, 1, 1);
  }

  lemma StepGrows(s: NodeState, self: string, op: Operation, b: Backend)
    ensures Grows(s, Step(s, self, op, b).s)
  {
    if op.name == PREPARE_QUBITS {
    } else if op.name == SINGLE {
      SingleGrows(s, self, op, false);
    } else if op.name == TWO_QUBIT {
      TwoQubitGrows(s, self, op);
    } else if op.name == CLASSICAL_CTRL_GATE {
      CtrlGrows(s, self, op);
    } else if op.name == SEND_ENT || op.name == REC_ENT {
      EntGrows(s, self, op, b);
    } else if op.name == SEND_CLASSICAL || op.name == REC_CLASSICAL {
      ClassicalGrows(s, self, op, b);
    } else if op.name == MEASURE {
      MeasureGrows(s, self, op, b);
    }
  }

  /** Running operations, crash or not, keeps everything Grows names. */
  lemma {:induction false} RunOpsGrows(s: NodeState, self: string, ops: seq<ScheduledOp>, env: nat -> Backend, j: nat)
    ensures Grows(s, RunOps(s, self, ops, env, j).s)
    decreases |ops| - j
  {
    if j < |ops| {
      var o := Step(s, self, ops[j].op, env(j));
      StepGrows(s, self, ops[j].op, env(j));
      if !o.Crashed? {
        RunOpsGrows(o.s, self, ops, env, j + 1);
        GrowsTransitive(s, o.s, RunOps(o.s, self, ops, env, j + 1).s);
      }
    }
  }

  /**
   * perform_schedule answers the clock exactly once when the tick's
   * operations all complete, and not at all when one of them raises.
   */
  lemma TickStepResponds(s: NodeState, self: string, schedule: map<nat, seq<ScheduledOp>>, tick: nat, env: nat -> Backend)
    ensures TickStep(s, self, schedule, tick, env).Ran? ==>
      TickStep(s, self, schedule, tick, env).s.responses == s.responses + 1
    ensures TickStep(s, self, schedule, tick, env).Crashed? ==>
      TickStep(s, self, schedule, tick, env).s.responses == s.responses
    ensures s.stopped ==> TickStep(s, self, schedule, tick, env).s.stopped
    ensures s.calls <= TickStep(s, self, schedule, tick, env).s.calls
    ensures tick !in schedule ==> TickStep(s, self, schedule, tick, env) == Ran(s.(responses := s.responses + 1))
  {
    if tick in schedule {
      RunOpsGrows(s, self, schedule[tick], env, 0);
    }
  }

  /** The operations of one tick run one after the other, each on the state the previous left. */
  lemma RunOpsInOrder(s: NodeState, self: string, ops: seq<ScheduledOp>, env: nat -> Backend)
    requires ops != []
    ensures RunOps(s, self, ops, env, 0) ==
      var o := Step(s, self, ops[0].op, env(0));
      if o.Crashed? then o else RunOps(o.s, self, ops, env, 1)
  {
  }

  /** The entries stamped with tick t are those of the schedule with that tick, in order. */
  lemma {:induction false} AtTickMembers(entries: seq<ScheduledOp>, t: nat)
    ensures forall e :: e in AtTick(entries, t) <==> e in entries && e.layerEnd == t
    ensures |AtTick(entries, t)| <= |entries|
  {
    if entries != [] {
      var k := |entries| - 1;
      AtTickMembers(entries[..k], t);
      assert entries == entries[..k] + [entries[k]];
      forall e ensures e in entries <==> e in entries[..k] || e == entries[k] {
        if e in entries {
          var i :| 0 <= i < |entries| && entries[i] == e;
          if i < k { assert entries[..k][i] == e; }
        }
      }
    }
  }

  /**
   * The grouping receive_schedule builds holds a tick exactly when some entry
   * carries it, and under it the entries with that tick, in schedule order.
   */
  lemma {:induction false} GroupIsFilter(entries: seq<ScheduledOp>)
    ensures forall t :: t in Group(entries) <==> AtTick(entries, t) != []
    ensures forall t :: t in Group(entries) ==> Group(entries)[t] == AtTick(entries, t)
  {
    if entries != [] {
      var k := |entries| - 1;
      GroupIsFilter(entries[..k]);
      var e := entries[k];
      forall t ensures t in Group(entries) <==> AtTick(entries, t) != []
      {
        if t == e.layerEnd {
          assert AtTick(entries, t) == AtTick(entries[..k], t) + [e];
        }
      }
    }
  }

  /** receive_schedule grouping: every tick's list holds exactly this host's entries with that tick. */
  lemma ReceivedSchedule(schedules: map<string, seq<ScheduledOp>>, host: string, t: nat)
    requires host in schedules
    ensures t in Group(schedules[host]) ==>
      forall e :: e in Group(schedules[host])[t] <==> e in schedules[host] && e.layerEnd == t
    ensures t !in Group(schedules[host]) ==> forall e :: e in schedules[host] ==> e.layerEnd != t
  {
    GroupIsFilter(schedules[host]);
    AtTickMembers(schedules[host], t);
  }

  /** A bit the compiler names with a fresh id is never part of the reported results. */
  lemma FreshBitsHidden(bits: map<string, int>, k: nat)
    ensures Compiler.FreshId(k) !in ReportedBits(bits)
    ensures forall id :: id in bits && |id| < ReportedIdLength ==> id in ReportedBits(bits) && ReportedBits(bits)[id] == bits[id]
  {
  }
}
