/**
 * The distributed compiler of interlinq/components/controller_host.py
 * (_replace_control_gates and _generate_distributed_circuit). Every run of
 * cross-node controlled gates found by the control-gate scan becomes one
 * entangled pair plus a teleportation block of 8 + (longest run) layers.
 *
 * The uuid4 identifiers of the source are drawn from a counter: run r of a
 * layer whose runs start at counter `next` names its EPR qubit FreshId(next + 3r)
 * and its two bits FreshId(next + 3r + 1) and FreshId(next + 3r + 2).
 */
module Compiler {
  import opened Wrappers
  import opened Seqs
  import opened Constants
  import opened Operations
  import opened ControlGates

  datatype RunIds = RunIds(epr: string, bit1: string, bit2: string)

  /** Decimal digits of k. */
  function Digits(k: nat): (d: string)
    ensures |d| >= 1
    ensures forall i :: 0 <= i < |d| ==> '0' <= d[i] <= '9'
    decreases k
  {
    var c := ['0' + (k % 10) as char];
    if k < 10 then c else Digits(k / 10) + c
  }

  /**
   * The prefix of every fresh identifier. A uuid4 string has 36 characters;
   * the prefix keeps every fresh identifier at least 15 characters long, the
   * length the computing hosts use to tell these ids from the circuit's own bits.
   */
  const FreshPrefix: string := "uuid4-generated-"

  /** The k-th fresh identifier; it stands for the k-th uuid4 the controller draws. */
  function FreshId(k: nat): (id: string)
    ensures |id| >= 15
  {
    FreshPrefix + Digits(k)
  }

  lemma {:induction false} DigitsInjective(a: nat, b: nat)
    requires Digits(a) == Digits(b)
    ensures a == b
    decreases a
  {
    var da, db := Digits(a), Digits(b);
    assert da[|da| - 1] == '0' + (a % 10) as char;
    assert db[|db| - 1] == '0' + (b % 10) as char;
    if a >= 10 && b >= 10 {
      assert Digits(a / 10) == da[..|da| - 1] == db[..|db| - 1] == Digits(b / 10);
      DigitsInjective(a / 10, b / 10);
    }
  }

  /** Distinct counters give distinct identifiers, as distinct uuid4 draws do. */
  lemma {:induction false} FreshIdInjective(a: nat, b: nat)
    ensures FreshId(a) == FreshId(b) <==> a == b
  {
    if FreshId(a) == FreshId(b) {
      assert Digits(a) == FreshId(a)[|FreshPrefix|..] == FreshId(b)[|FreshPrefix|..] == Digits(b);
      DigitsInjective(a, b);
    }
  }

  function IdsFor(next: nat, r: nat): RunIds {
    RunIds(FreshId(next + 3 * r), FreshId(next + 3 * r + 1), FreshId(next + 3 * r + 2))
  }

  /** The pair of entanglement operations a run adds to the current layer. */
  function EntPair(e: GateInfo, rid: RunIds): seq<Operation>
    requires RunReady(e)
  {
    [Operation(SEND_ENT, Some([rid.epr]), None, None, None, [e.hosts[0], e.hosts[1]], true),
     Operation(REC_ENT, Some([rid.epr]), None, None, None, [e.hosts[1], e.hosts[0]], true)]
  }

  /** The target-side copy of one gate of the run: same gate and parameter, on the EPR qubit and the original target. */
  function TargetGate(op: Operation, epr: string, targetHost: string): Operation
    requires TargetQubit(op).Ok?
  {
    Operation(TWO_QUBIT, Some([epr, TargetQubit(op).value]), None, op.gate, op.gateParam, [targetHost], false)
  }

  /** What run e puts into slot s of the block. */
  function RunSlot(e: GateInfo, rid: RunIds, s: nat): seq<Operation>
    requires RunReady(e)
  {
    var c, ch, th, n := e.controlQubit, e.hosts[0], e.hosts[1], |e.operations|;
    if s == 0 then [Operation(TWO_QUBIT, Some([c, rid.epr]), None, Some(CNOT), None, [ch], false)]
    else if s == 1 then [Operation(MEASURE, Some([rid.epr]), Some([rid.bit1]), None, None, [ch], false)]
    else if s == 2 then
      [Operation(SEND_CLASSICAL, None, Some([rid.bit1]), None, None, [ch, th], false),
       Operation(REC_CLASSICAL, None, Some([rid.bit1]), None, None, [th, ch], false)]
    else if s == 3 then [Operation(CLASSICAL_CTRL_GATE, Some([rid.epr]), Some([rid.bit1]), Some(X), None, [th], false)]
    else if s < 4 + n then
      assert Reverse(e.operations)[s - 4] == e.operations[n - 1 - (s - 4)];
      [TargetGate(Reverse(e.operations)[s - 4], rid.epr, th)]
    else if s == 4 + n then [Operation(SINGLE, Some([rid.epr]), None, Some(H), None, [th], false)]
    else if s == 5 + n then [Operation(MEASURE, Some([rid.epr]), Some([rid.bit2]), None, None, [th], false)]
    else if s == 6 + n then
      [Operation(SEND_CLASSICAL, None, Some([rid.bit2]), None, None, [th, ch], false),
       Operation(REC_CLASSICAL, None, Some([rid.bit2]), None, None, [ch, th], false)]
    else if s == 7 + n then [Operation(CLASSICAL_CTRL_GATE, Some([c]), Some([rid.bit2]), Some(Z), None, [ch], false)]
    else []
  }

  /** A run the block can be built from: two hosts and a readable target on every gate. */
  predicate RunReady(e: GateInfo) {
    |e.hosts| >= 2 && forall op :: op in e.operations ==> TargetQubit(op).Ok?
  }

  /** The first failing target getter, in the order the block visits the gates. */
  function FirstTargetError(ops: seq<Operation>): Option<Error> {
    if ops == [] then None
    else if TargetQubit(ops[0]).Err? then Some(TargetQubit(ops[0]).error)
    else FirstTargetError(ops[1..])
  }

  /** The error the block construction raises for run e, if any. */
  function RunError(e: GateInfo): Option<Error> {
    if |e.hosts| < 2 then Some(IndexError) else FirstTargetError(Reverse(e.operations))
  }

  /** The error the block construction raises for a layer's runs: the first run's that fails. */
  function InfoError(runs: seq<GateInfo>): Option<Error> {
    if runs == [] then None
    else if RunError(runs[0]).Some? then RunError(runs[0])
    else InfoError(runs[1..])
  }

  lemma {:induction false} FirstTargetErrorNone(ops: seq<Operation>)
    ensures FirstTargetError(ops).None? <==> forall op :: op in ops ==> TargetQubit(op).Ok?
  {
    if ops != [] {
      FirstTargetErrorNone(ops[1..]);
      assert forall op :: op in ops ==> op == ops[0] || op in ops[1..];
    }
  }

  /** A run fails exactly when it lacks a second host or a gate's target qubit cannot be read. */
  lemma {:induction false} RunErrorNone(e: GateInfo)
    ensures RunError(e).None? <==> RunReady(e)
  {
    if |e.hosts| >= 2 {
      FirstTargetErrorNone(Reverse(e.operations));
      forall op | op in e.operations ensures op in Reverse(e.operations) {
        var i :| 0 <= i < |e.operations| && e.operations[i] == op;
        assert Reverse(e.operations)[|e.operations| - 1 - i] == op;
      }
      forall op | op in Reverse(e.operations) ensures op in e.operations {
        var i :| 0 <= i < |e.operations| && Reverse(e.operations)[i] == op;
      }
    }
  }

  /** The block construction fails exactly when one of the layer's runs does. */
  lemma {:induction false} InfoErrorNone(runs: seq<GateInfo>)
    ensures InfoError(runs).None? <==> forall e :: e in runs ==> RunReady(e)
  {
    if runs != [] {
      RunErrorNone(runs[0]);
      InfoErrorNone(runs[1..]);
      assert forall e :: e in runs ==> e == runs[0] || e in runs[1..];
    }
  }

  /** The longest run. */
  function MaxLen(runs: seq<GateInfo>): nat {
    if runs == [] then 0
    else
      var m := MaxLen(runs[..|runs| - 1]);
      if |runs[|runs| - 1].operations| > m then |runs[|runs| - 1].operations| else m
  }

  /** MaxLen is the length of the longest run. */
  lemma {:induction false} MaxLenIsMax(runs: seq<GateInfo>)
    ensures forall e :: e in runs ==> |e.operations| <= MaxLen(runs)
    ensures runs != [] ==> exists e :: e in runs && |e.operations| == MaxLen(runs)
  {
    if runs != [] {
      var k := |runs| - 1;
      MaxLenIsMax(runs[..k]);
      assert forall e :: e in runs ==> e in runs[..k] || e == runs[k];
      if k > 0 {
        var w :| w in runs[..k] && |w.operations| == MaxLen(runs[..k]);
        assert w in runs;
      }
    }
  }

  /** The entanglement operations of runs, in run order. */
  function EntPairs(runs: seq<GateInfo>, next: nat): seq<Operation>
    requires forall e :: e in runs ==> RunReady(e)
  {
    if runs == [] then []
    else
      assert runs[|runs| - 1] in runs;
      assert forall e :: e in runs[..|runs| - 1] ==> e in runs;
      EntPairs(runs[..|runs| - 1], next) + EntPair(runs[|runs| - 1], IdsFor(next, |runs| - 1))
  }

  /** Slot s of the block: every run's contribution, in run order. */
  function Slot(runs: seq<GateInfo>, next: nat, s: nat): seq<Operation>
    requires forall e :: e in runs ==> RunReady(e)
  {
    if runs == [] then []
    else
      assert runs[|runs| - 1] in runs;
      assert forall e :: e in runs[..|runs| - 1] ==> e in runs;
      Slot(runs[..|runs| - 1], next, s) + RunSlot(runs[|runs| - 1], IdsFor(next, |runs| - 1), s)
  }

  function BlockLength(runs: seq<GateInfo>): nat {
    if runs == [] then 0 else DISTRIBUTED_CONTROL_CIRCUIT_LEN + MaxLen(runs)
  }

  /** The teleportation block: BlockLength(runs) layers, layer s holding Slot s. */
  function Block(runs: seq<GateInfo>, next: nat): seq<seq<Operation>>
    requires forall e :: e in runs ==> RunReady(e)
  {
    seq(BlockLength(runs), s requires 0 <= s < BlockLength(runs) => Slot(runs, next, s))
  }

  lemma BlockSlots(runs: seq<GateInfo>, next: nat)
    requires forall e :: e in runs ==> RunReady(e)
    ensures |Block(runs, next)| == BlockLength(runs)
    ensures forall s :: 0 <= s < BlockLength(runs) ==> Block(runs, next)[s] == Slot(runs, next, s)
  {
  }

  /**
   * _replace_control_gates: the current layer grows by every run's EPR pair;
   * the block is empty for no runs, else 8 + (longest run) layers.
   */
  function Replace(runs: seq<GateInfo>, current: seq<Operation>, next: nat)
    : Result<(seq<Operation>, seq<seq<Operation>>)>
  {
    match InfoError(runs)
    case Some(err) => Err(err)
    case None =>
      InfoErrorNone(runs);
      Ok((current + EntPairs(runs, next),
          Block(runs, next)))
  }

  /** The slot-filling loop of the source, on an array of operation lists. */
  method ReplaceControlGates(runs: seq<GateInfo>, current: seq<Operation>, next: nat)
    returns (r: Result<(seq<Operation>, seq<seq<Operation>>)>)
    ensures r == Replace(runs, current, next)
  {
    var maxGates := LongestRun(runs);
    MaxLenIsMax(runs);
    var circuitLen := DISTRIBUTED_CONTROL_CIRCUIT_LEN + maxGates;
    var operations := new seq<Operation>[circuitLen](_ => []);
    var cur := current;
    var q := 0;
    while q < |runs|
      invariant 0 <= q <= |runs|
      invariant InfoError(runs) == InfoError(runs[q..])
      invariant forall e :: e in runs[..q] ==> RunReady(e)
      invariant cur == current + EntPairs(runs[..q], next)
      invariant operations.Length == circuitLen
      invariant Filled(operations[..], runs[..q], next)
    {
      var e := runs[q];
      ErrorStep(runs, q);
      var err := RunError(e);
      RunErrorNone(e);
      if err.Some? {
        ReplaceFails(runs, current, next);
        return Err(err.value);
      }
      PrefixReady(runs, q);
      CurrentStep(runs, q, next, current, cur);
      cur := cur + EntPair(e, IdsFor(next, q));
      AddRun(operations, runs, q, next);
      q := q + 1;
    }
    assert runs[..q] == runs;
    var block: seq<seq<Operation>> := [];
    if runs != [] {
      block := operations[..];
    }
    BlockIsSlots(runs, next, operations[..], block);
    ReplaceSucceeds(runs, current, next);
    r := Ok((cur, block));
  }

  lemma ReplaceFails(runs: seq<GateInfo>, current: seq<Operation>, next: nat)
    requires InfoError(runs).Some?
    ensures Replace(runs, current, next) == Err(InfoError(runs).value)
  {
  }

  lemma ReplaceSucceeds(runs: seq<GateInfo>, current: seq<Operation>, next: nat)
    requires forall e :: e in runs ==> RunReady(e)
    ensures Replace(runs, current, next) == Ok((current + EntPairs(runs, next),
      Block(runs, next)))
  {
    InfoErrorNone(runs);
  }

  lemma BlockIsSlots(runs: seq<GateInfo>, next: nat, filled: seq<seq<Operation>>, block: seq<seq<Operation>>)
    requires forall e :: e in runs ==> RunReady(e)
    requires |filled| == DISTRIBUTED_CONTROL_CIRCUIT_LEN + MaxLen(runs)
    requires Filled(filled, runs, next)
    requires block == if runs == [] then [] else filled
    ensures block == Block(runs, next)
  {
    BlockSlots(runs, next);
  }

  /** The first loop of the source: the length of the longest run. */
  method LongestRun(runs: seq<GateInfo>) returns (m: nat)
    ensures m == MaxLen(runs)
  {
    m := 0;
    for q := 0 to |runs|
      invariant m == MaxLen(runs[..q])
    {
      assert runs[..q + 1][..q] == runs[..q];
      if |runs[q].operations| > m {
        m := |runs[q].operations|;
      }
    }
    assert runs[..|runs|] == runs;
  }

  /** Every slot of `slots` holds what `runs` put there. */
  predicate Filled(slots: seq<seq<Operation>>, runs: seq<GateInfo>, next: nat)
    requires forall e :: e in runs ==> RunReady(e)
  {
    forall s :: 0 <= s < |slots| ==> slots[s] == Slot(runs, next, s)
  }

  lemma FilledStep(runs: seq<GateInfo>, q: nat, next: nat,
                   before: seq<seq<Operation>>, after: seq<seq<Operation>>)
    requires q < |runs|
    requires forall e :: e in runs[..q + 1] ==> RunReady(e)
    requires forall e :: e in runs[..q] ==> RunReady(e)
    requires RunReady(runs[q])
    requires Filled(before, runs[..q], next)
    requires |after| == |before|
    requires forall s :: 0 <= s < |after| ==> after[s] == before[s] + RunSlot(runs[q], IdsFor(next, q), s)
    ensures Filled(after, runs[..q + 1], next)
  {
    forall s | 0 <= s < |after|
      ensures after[s] == Slot(runs[..q + 1], next, s)
    {
      SlotSnoc(runs, q, next, s);
    }
  }

  lemma ErrorStep(runs: seq<GateInfo>, q: nat)
    requires q < |runs|
    ensures InfoError(runs[q..]) == if RunError(runs[q]).Some? then RunError(runs[q]) else InfoError(runs[q + 1..])
  {
    assert runs[q..][1..] == runs[q + 1..];
  }

  lemma PrefixReady(runs: seq<GateInfo>, q: nat)
    requires q < |runs|
    requires forall e :: e in runs[..q] ==> RunReady(e)
    requires RunReady(runs[q])
    ensures forall e :: e in runs[..q + 1] ==> RunReady(e)
  {
    assert forall x :: x in runs[..q + 1] ==> x in runs[..q] || x == runs[q];
  }

  lemma CurrentStep(runs: seq<GateInfo>, q: nat, next: nat, current: seq<Operation>, cur: seq<Operation>)
    requires q < |runs|
    requires forall e :: e in runs[..q + 1] ==> RunReady(e)
    requires forall e :: e in runs[..q] ==> RunReady(e)
    requires RunReady(runs[q])
    requires cur == current + EntPairs(runs[..q], next)
    ensures cur + EntPair(runs[q], IdsFor(next, q)) == current + EntPairs(runs[..q + 1], next)
  {
    EntPairsSnoc(runs, q, next);
  }

  lemma EntPairsSnoc(runs: seq<GateInfo>, q: nat, next: nat)
    requires q < |runs|
    requires forall e :: e in runs[..q + 1] ==> RunReady(e)
    ensures forall e :: e in runs[..q] ==> RunReady(e)
    ensures RunReady(runs[q])
    ensures EntPairs(runs[..q + 1], next) == EntPairs(runs[..q], next) + EntPair(runs[q], IdsFor(next, q))
  {
    assert runs[..q + 1][..q] == runs[..q];
    assert runs[..q + 1][q] == runs[q];
    assert forall x :: x in runs[..q] ==> x in runs[..q + 1];
  }

  lemma SlotSnoc(runs: seq<GateInfo>, q: nat, next: nat, s: nat)
    requires q < |runs|
    requires forall e :: e in runs[..q + 1] ==> RunReady(e)
    ensures forall e :: e in runs[..q] ==> RunReady(e)
    ensures RunReady(runs[q])
    ensures Slot(runs[..q + 1], next, s) == Slot(runs[..q], next, s) + RunSlot(runs[q], IdsFor(next, q), s)
  {
    assert runs[..q + 1][..q] == runs[..q];
    assert runs[..q + 1][q] == runs[q];
    assert forall x :: x in runs[..q] ==> x in runs[..q + 1];
  }

  /** One iteration of the run loop: the slots now hold runs[..q + 1]. */
  method AddRun(operations: array<seq<Operation>>, runs: seq<GateInfo>, q: nat, next: nat)
    requires q < |runs|
    requires forall e :: e in runs[..q + 1] ==> RunReady(e)
    requires forall e :: e in runs[..q] ==> RunReady(e)
    requires RunReady(runs[q])
    requires DISTRIBUTED_CONTROL_CIRCUIT_LEN + |runs[q].operations| <= operations.Length
    requires Filled(operations[..], runs[..q], next)
    modifies operations
    ensures Filled(operations[..], runs[..q + 1], next)
  {
    ghost var before := operations[..];
    FillRun(operations, runs[q], IdsFor(next, q));
    FilledStep(runs, q, next, before, operations[..]);
  }

  /** The slot writes of one run: slot s of the block gains RunSlot(e, rid, s). */
  method FillRun(operations: array<seq<Operation>>, e: GateInfo, rid: RunIds)
    requires RunReady(e)
    requires DISTRIBUTED_CONTROL_CIRCUIT_LEN + |e.operations| <= operations.Length
    modifies operations
    ensures forall s :: 0 <= s < operations.Length ==> operations[s] == old(operations[s]) + RunSlot(e, rid, s)
  {
    ghost var start := operations[..];
    var th := e.hosts[1];
    var rops := Reverse(e.operations);
    var n := |e.operations|;
    var itr := 0;
    // CNOT onto the EPR half, measurement, bit to the target side, classically controlled X
    while itr < 4
      invariant 0 <= itr <= 4
      invariant RunPartly(operations[..], start, e, rid, itr)
    {
      ghost var pre := operations[..];
      operations[itr] := operations[itr] + RunSlot(e, rid, itr);
      RunPartlyStep(pre, operations[..], start, e, rid, itr);
      itr := itr + 1;
    }
    // the run's gates, latest first, copied to the target side
    var g := 0;
    while g < n
      invariant 0 <= g <= n && itr == 4 + g
      invariant RunPartly(operations[..], start, e, rid, itr)
    {
      var op := rops[g];
      assert op in e.operations by {
        assert e.operations[n - 1 - g] == op;
      }
      var gateOp := TargetGate(op, rid.epr, th);
      assert [gateOp] == RunSlot(e, rid, itr);
      ghost var pre := operations[..];
      operations[itr] := operations[itr] + [gateOp];
      RunPartlyStep(pre, operations[..], start, e, rid, itr);
      itr := itr + 1;
      g := g + 1;
    }
    // H, measurement, bit back to the control side, classically controlled Z
    while itr < DISTRIBUTED_CONTROL_CIRCUIT_LEN + n
      invariant 4 + n <= itr <= DISTRIBUTED_CONTROL_CIRCUIT_LEN + n
      invariant RunPartly(operations[..], start, e, rid, itr)
    {
      ghost var pre := operations[..];
      operations[itr] := operations[itr] + RunSlot(e, rid, itr);
      RunPartlyStep(pre, operations[..], start, e, rid, itr);
      itr := itr + 1;
    }
    RunPartlyDone(operations[..], start, e, rid, itr);
  }

  /** Slots below `upto` have gained run e's contribution; the others are untouched. */
  ghost predicate RunPartly(now: seq<seq<Operation>>, start: seq<seq<Operation>>, e: GateInfo, rid: RunIds, upto: nat)
    requires RunReady(e)
  {
    |now| == |start| &&
    forall s :: 0 <= s < |now| ==> now[s] == start[s] + (if s < upto then RunSlot(e, rid, s) else [])
  }

  lemma RunPartlyStep(pre: seq<seq<Operation>>, post: seq<seq<Operation>>, start: seq<seq<Operation>>,
                      e: GateInfo, rid: RunIds, t: nat)
    requires RunReady(e)
    requires t < |pre| && RunPartly(pre, start, e, rid, t)
    requires post == pre[t := pre[t] + RunSlot(e, rid, t)]
    ensures RunPartly(post, start, e, rid, t + 1)
  {
  }

  lemma RunPartlyDone(now: seq<seq<Operation>>, start: seq<seq<Operation>>, e: GateInfo, rid: RunIds, upto: nat)
    requires RunReady(e)
    requires upto == DISTRIBUTED_CONTROL_CIRCUIT_LEN + |e.operations|
    requires RunPartly(now, start, e, rid, upto)
    ensures forall s :: 0 <= s < |now| ==> now[s] == start[s] + RunSlot(e, rid, s)
  {
  }

  // ---------------------------------------------------------------------------
  // _generate_distributed_circuit

  /** The operations of a layer that are not cross-node controlled gates, in order. */
  function Kept(ops: seq<Operation>): seq<Operation> {
    if ops == [] then []
    else Kept(ops[..|ops| - 1]) + (if IsControlGateOverTwoHosts(ops[|ops| - 1]) then [] else [ops[|ops| - 1]])
  }

  /** The new layer holds exactly the operations of the layer that are not cross-node gates. */
  lemma {:induction false} KeptMembers(ops: seq<Operation>)
    ensures forall op :: op in Kept(ops) <==> op in ops && !IsControlGateOverTwoHosts(op)
  {
    if ops != [] {
      var k := |ops| - 1;
      assert ops == ops[..k] + [ops[k]];
      KeptMembers(ops[..k]);
    }
  }

  /** The filtering loop that builds the new layer. */
  method KeepLocal(ops: seq<Operation>) returns (r: seq<Operation>)
    ensures r == Kept(ops)
  {
    r := [];
    for i := 0 to |ops|
      invariant r == Kept(ops[..i])
    {
      assert ops[..i + 1][..i] == ops[..i];
      if !IsControlGateOverTwoHosts(ops[i]) {
        r := r + [ops[i]];
      }
    }
    assert ops[..|ops|] == ops;
  }

  /**
   * What one layer compiles to: its surviving operations, grown by its EPR
   * pairs, when that is non-empty, followed by the layer's teleportation block.
   */
  function LayerOut(layer: seq<Operation>, runs: seq<GateInfo>, n: nat): Result<seq<seq<Operation>>> {
    var r := Replace(runs, Kept(layer), n);
    if r.Err? then Err(r.error)
    else Ok((if r.value.0 != [] then [r.value.0] else []) + r.value.1)
  }

  /** One iteration of the compiler loop. */
  method CompileLayer(layer: seq<Operation>, runs: seq<GateInfo>, n: nat)
    returns (r: Result<seq<seq<Operation>>>)
    ensures r == LayerOut(layer, runs, n)
  {
    var newLayer := KeepLocal(layer);
    var replaced := ReplaceControlGates(runs, newLayer, n);
    if replaced.Err? {
      return Err(replaced.error);
    }
    var cur := replaced.value.0;
    var added: seq<seq<Operation>> := [];
    if cur != [] {
      added := [cur];
    }
    added := added + replaced.value.1;
    return Ok(added);
  }

  /** Layers i.. of the circuit compiled onto `out`; n is the next unused id index. */
  function CompileFrom(layers: seq<seq<Operation>>, info: seq<seq<GateInfo>>, i: nat,
                       out: seq<seq<Operation>>, n: nat): Result<(seq<seq<Operation>>, nat)>
    requires i <= |layers|
    decreases |layers| - i
  {
    if i == |layers| then Ok((out, n))
    else if i >= |info| then Err(IndexError)
    else
      var added := LayerOut(layers[i], info[i], n);
      if added.Err? then Err(added.error)
      else CompileFrom(layers, info, i + 1, out + added.value, n + 3 * |info[i]|)
  }

  /** The compiled layers and the next unused id index, or the error the compilation raises. */
  function Compile(layers: seq<seq<Operation>>, next: nat): Result<(seq<seq<Operation>>, nat)> {
    match ControlGateInfo(layers)
    case Err(err) => Err(err)
    case Ok(info) => CompileFrom(layers, info, 0, [], next)
  }

  /** The compiler loop of the source. */
  method GenerateDistributedCircuit(layers: seq<seq<Operation>>, next: nat)
    returns (r: Result<(seq<seq<Operation>>, nat)>)
    ensures r == Compile(layers, next)
  {
    var scan := ControlGateInfo(layers);
    if scan.Err? {
      return Err(scan.error);
    }
    r := CompileLayers(layers, scan.value, next);
  }

  /** The loop over the layers, given the control-gate scan. */
  method CompileLayers(layers: seq<seq<Operation>>, info: seq<seq<GateInfo>>, next: nat)
    returns (r: Result<(seq<seq<Operation>>, nat)>)
    ensures r == CompileFrom(layers, info, 0, [], next)
  {
    var out: seq<seq<Operation>> := [];
    var n: nat := next;
    var i := 0;
    while i < |layers|
      invariant i <= |layers|
      invariant CompileFrom(layers, info, i, out, n) == CompileFrom(layers, info, 0, [], next)
    {
      if i >= |info| {
        return Err(IndexError);
      }
      var added := CompileLayer(layers[i], info[i], n);
      if added.Err? {
        CompileStep(layers, info, i, out, n, added);
        return Err(added.error);
      }
      var out' := out + added.value;
      var n' := n + 3 * |info[i]|;
      CompileAdvance(layers, info, i, out, n, added.value, next, out', n');
      out, n, i := out', n', i + 1;
    }
    return Ok((out, n));
  }

  lemma CompileAdvance(layers: seq<seq<Operation>>, info: seq<seq<GateInfo>>, i: nat,
                       out: seq<seq<Operation>>, n: nat, added: seq<seq<Operation>>, next: nat,
                       out': seq<seq<Operation>>, n': nat)
    requires i < |layers| && i < |info|
    requires LayerOut(layers[i], info[i], n).Ok? && added == LayerOut(layers[i], info[i], n).value
    requires CompileFrom(layers, info, i, out, n) == CompileFrom(layers, info, 0, [], next)
    requires out' == out + added && n' == n + 3 * |info[i]|
    ensures CompileFrom(layers, info, i + 1, out', n') == CompileFrom(layers, info, 0, [], next)
  {
    assert CompileFrom(layers, info, i, out, n) == CompileFrom(layers, info, i + 1, out + added, n + 3 * |info[i]|);
  }

  lemma CompileStep(layers: seq<seq<Operation>>, info: seq<seq<GateInfo>>, i: nat,
                    out: seq<seq<Operation>>, n: nat, added: Result<seq<seq<Operation>>>)
    requires i < |layers| && i < |info|
    requires added == LayerOut(layers[i], info[i], n)
    ensures CompileFrom(layers, info, i, out, n) ==
      if added.Err? then Err(added.error)
      else CompileFrom(layers, info, i + 1, out + added.value, n + 3 * |info[i]|)
  {
  }

  // ---------------------------------------------------------------------------
  // What the compiled circuit looks like.

  /** Every operation carries one of the twelve intended kind names. */
  predicate Named(ops: seq<Operation>) {
    forall op :: op in ops ==> IsIntendedOperationName(op.name)
  }

  /**
   * A compiled layer: not empty, every operation of a known kind, and every
   * operation runs on one node (or is a transfer between two).
   */
  predicate LocalLayer(l: seq<Operation>) {
    l != [] && Named(l) && forall op :: op in l ==> !IsControlGateOverTwoHosts(op)
  }

  /** The kinds a teleportation block emits are all on the intended list. */
  lemma EmittedKindsIntended()
    ensures IsIntendedOperationName(SINGLE) && IsIntendedOperationName(TWO_QUBIT)
    ensures IsIntendedOperationName(CLASSICAL_CTRL_GATE) && IsIntendedOperationName(MEASURE)
    ensures IsIntendedOperationName(SEND_ENT) && IsIntendedOperationName(REC_ENT)
    ensures IsIntendedOperationName(SEND_CLASSICAL) && IsIntendedOperationName(REC_CLASSICAL)
  {
    assert IntendedOperationNames[1] == SINGLE && IntendedOperationNames[2] == TWO_QUBIT;
    assert IntendedOperationNames[4] == CLASSICAL_CTRL_GATE && IntendedOperationNames[9] == MEASURE;
    assert IntendedOperationNames[5] == REC_ENT && IntendedOperationNames[6] == SEND_ENT;
    assert IntendedOperationNames[7] == SEND_CLASSICAL && IntendedOperationNames[8] == REC_CLASSICAL;
  }

  lemma {:induction false} RunSlotKinds(e: GateInfo, rid: RunIds, s: nat)
    requires RunReady(e)
    ensures forall op :: op in RunSlot(e, rid, s) ==>
      op.name in {SINGLE, TWO_QUBIT, CLASSICAL_CTRL_GATE, MEASURE, SEND_CLASSICAL, REC_CLASSICAL}
    ensures forall op :: op in RunSlot(e, rid, s) ==> !IsControlGateOverTwoHosts(op)
    ensures s < DISTRIBUTED_CONTROL_CIRCUIT_LEN + |e.operations| ==> RunSlot(e, rid, s) != []
  {
  }

  lemma {:induction false} RunSlotLocal(e: GateInfo, rid: RunIds, s: nat)
    requires RunReady(e)
    ensures Named(RunSlot(e, rid, s))
    ensures forall op :: op in RunSlot(e, rid, s) ==> !IsControlGateOverTwoHosts(op)
    ensures s < DISTRIBUTED_CONTROL_CIRCUIT_LEN + |e.operations| ==> RunSlot(e, rid, s) != []
  {
    RunSlotKinds(e, rid, s);
    EmittedKindsIntended();
  }

  lemma {:induction false} SlotLocal(runs: seq<GateInfo>, next: nat, s: nat)
    requires forall e :: e in runs ==> RunReady(e)
    ensures Named(Slot(runs, next, s))
    ensures forall op :: op in Slot(runs, next, s) ==> !IsControlGateOverTwoHosts(op)
    ensures (exists e :: e in runs && s < DISTRIBUTED_CONTROL_CIRCUIT_LEN + |e.operations|) ==>
      Slot(runs, next, s) != []
    decreases |runs|
  {
    if runs != [] {
      var k := |runs| - 1;
      assert forall e :: e in runs[..k] ==> e in runs;
      assert forall e :: e in runs ==> e in runs[..k] || e == runs[k];
      SlotLocal(runs[..k], next, s);
      RunSlotLocal(runs[k], IdsFor(next, k), s);
    }
  }

  /** Every layer of a teleportation block is a non-empty layer of single-node operations. */
  lemma {:induction false} BlockLocal(runs: seq<GateInfo>, next: nat)
    requires forall e :: e in runs ==> RunReady(e)
    ensures forall l :: l in Block(runs, next) ==> LocalLayer(l)
  {
    var b := Block(runs, next);
    BlockSlots(runs, next);
    MaxLenIsMax(runs);
    forall l | l in b ensures LocalLayer(l) {
      var s :| 0 <= s < |b| && b[s] == l;
      var w :| w in runs && |w.operations| == MaxLen(runs);
      SlotLocal(runs, next, s);
    }
  }

  lemma {:induction false} EntPairsLocal(runs: seq<GateInfo>, next: nat)
    requires forall e :: e in runs ==> RunReady(e)
    ensures forall op :: op in EntPairs(runs, next) ==> op.name in {SEND_ENT, REC_ENT}
    decreases |runs|
  {
    if runs != [] {
      var k := |runs| - 1;
      assert forall e :: e in runs[..k] ==> e in runs;
      EntPairsLocal(runs[..k], next);
    }
  }

  /** Every layer one layer compiles to is a non-empty layer of single-node operations. */
  lemma {:induction false} LayerOutLocal(layer: seq<Operation>, runs: seq<GateInfo>, n: nat)
    requires Named(layer)
    ensures LayerOut(layer, runs, n).Ok? ==>
      forall l :: l in LayerOut(layer, runs, n).value ==> LocalLayer(l)
  {
    InfoErrorNone(runs);
    if InfoError(runs).None? {
      var kept := Kept(layer);
      KeptMembers(layer);
      var cur := kept + EntPairs(runs, n);
      var block := Block(runs, n);
      ReplaceSucceeds(runs, kept, n);
      EntPairsLocal(runs, n);
      EmittedKindsIntended();
      BlockLocal(runs, n);
      assert TWO_QUBIT != SEND_ENT && TWO_QUBIT != REC_ENT;
      assert cur != [] ==> LocalLayer(cur);
      var added := (if cur != [] then [cur] else []) + block;
      assert LayerOut(layer, runs, n) == Ok(added);
      assert forall l :: l in added ==> (cur != [] && l == cur) || l in block;
    }
  }

  lemma {:induction false} CompileFromLocal(layers: seq<seq<Operation>>, info: seq<seq<GateInfo>>, i: nat,
                                            out: seq<seq<Operation>>, n: nat)
    requires i <= |layers|
    requires forall l :: l in layers ==> Named(l)
    requires forall l :: l in out ==> LocalLayer(l)
    ensures CompileFrom(layers, info, i, out, n).Ok? ==>
      forall l :: l in CompileFrom(layers, info, i, out, n).value.0 ==> LocalLayer(l)
    decreases |layers| - i
  {
    if i < |layers| && i < |info| {
      var added := LayerOut(layers[i], info[i], n);
      if added.Ok? {
        LayerOutLocal(layers[i], info[i], n);
        var out' := out + added.value;
        forall l | l in out' ensures LocalLayer(l) {
          assert l in out || l in added.value;
        }
        CompileFromLocal(layers, info, i + 1, out', n + 3 * |info[i]|);
        assert CompileFrom(layers, info, i, out, n) == CompileFrom(layers, info, i + 1, out', n + 3 * |info[i]|);
      }
    }
  }

  /**
   * The compiled circuit holds no cross-node controlled gate and no empty
   * layer: every two-qubit gate it keeps names one computing host.
   */
  lemma {:induction false} CompiledIsLocal(layers: seq<seq<Operation>>, next: nat)
    requires forall l :: l in layers ==> Named(l)
    ensures Compile(layers, next).Ok? ==>
      forall l :: l in Compile(layers, next).value.0 ==> LocalLayer(l)
  {
    if ControlGateInfo(layers).Ok? {
      CompileFromLocal(layers, ControlGateInfo(layers).value, 0, [], next);
    }
  }

  /**
   * With the intended name list, every operation of a compiled circuit is one
   * the Operation constructor accepts unchanged.
   */
  lemma {:induction false} CompiledOperationsConstructible(layers: seq<seq<Operation>>, next: nat)
    requires forall l :: l in layers ==> Named(l)
    ensures Compile(layers, next).Ok? ==>
      forall l, op :: l in Compile(layers, next).value.0 && op in l ==>
        NewOperation(op.name, op.qids, op.cids, op.gate, op.gateParam, op.hosts, op.preAllocated) == Ok(op)
  {
    CompiledIsLocal(layers, next);
  }

  /**
   * With the name list as written, slot 3 of every non-empty block holds a
   * classically controlled X that the Operation constructor refuses: building
   * the block raises InputError for every run.
   */
  lemma {:induction false} BlockRejectedAsWritten(runs: seq<GateInfo>, next: nat)
    requires runs != []
    requires forall e :: e in runs ==> RunReady(e)
    ensures 3 < |Block(runs, next)|
    ensures exists op :: (op in Block(runs, next)[3] && op.name == CLASSICAL_CTRL_GATE
      && NewOperationAsWritten(op.name, op.qids, op.cids, op.gate, op.gateParam, op.hosts, op.preAllocated).Err?)
  {
    BlockSlots(runs, next);
    OperationNamesAsWritten();
    var k := |runs| - 1;
    assert runs[k] in runs;
    var op := RunSlot(runs[k], IdsFor(next, k), 3)[0];
    assert op in Slot(runs, next, 3);
  }

  /** A layer without cross-node gates that holds no run compiles to itself. */
  lemma {:induction false} KeptAll(ops: seq<Operation>)
    requires forall op :: op in ops ==> !IsControlGateOverTwoHosts(op)
    ensures Kept(ops) == ops
  {
    if ops != [] {
      var k := |ops| - 1;
      assert ops == ops[..k] + [ops[k]];
      assert forall op :: op in ops[..k] ==> op in ops;
      KeptAll(ops[..k]);
    }
  }

  /** A run found at layer i starts with a cross-node gate of layer i. */
  lemma RunStartsWithCross(layers: seq<seq<Operation>>, i: nat, e: GateInfo)
    requires ControlGateInfo(layers).Ok?
    requires i < |layers| && i < |ControlGateInfo(layers).value|
    requires e in ControlGateInfo(layers).value[i]
    ensures e.opIndex < |layers[i]| && IsControlGateOverTwoHosts(layers[i][e.opIndex])
  {
    ControlGateInfoRuns(layers);
    assert RunAt(e, layers, i);
  }

  /** The scan of a circuit of local layers finds no run anywhere. */
  lemma {:induction false} NoRunsInLocalCircuit(layers: seq<seq<Operation>>)
    requires forall l :: l in layers ==> LocalLayer(l)
    ensures ControlGateInfo(layers).Ok?
    ensures |ControlGateInfo(layers).value| == |layers|
    ensures forall i :: 0 <= i < |layers| ==> ControlGateInfo(layers).value[i] == []
  {
    assert ControlQubitsReadable(layers) by {
      forall i, j | 0 <= i < |layers| && 0 <= j < |layers[i]|
        ensures !IsControlGateOverTwoHosts(layers[i][j])
      {
        assert layers[i] in layers;
        assert layers[i][j] in layers[i];
      }
    }
    ControlGateInfoOk(layers);
    ControlGateInfoRuns(layers);
    var info := ControlGateInfo(layers).value;
    forall i | 0 <= i < |layers| ensures info[i] == [] {
      assert layers[i] in layers;
      if info[i] != [] {
        RunStartsWithCross(layers, i, info[i][0]);
        assert false;
      }
    }
  }

  lemma LayerOutNoRuns(l: seq<Operation>, n: nat)
    requires LocalLayer(l)
    ensures LayerOut(l, [], n) == Ok([l])
  {
    KeptAll(l);
    ReplaceSucceeds([], l, n);
    BlockSlots([], n);
    assert EntPairs([], n) == [];
    assert Block([], n) == [];
    assert l + EntPairs([], n) == l;
    assert Replace([], Kept(l), n) == Ok((l, []));
    assert ([l] + []) == [l];
  }

  lemma {:induction false} CompileFromIdentity(layers: seq<seq<Operation>>, info: seq<seq<GateInfo>>,
                                               i: nat, n: nat)
    requires i <= |layers| == |info|
    requires forall l :: l in layers ==> LocalLayer(l)
    requires forall k :: 0 <= k < |info| ==> info[k] == []
    ensures CompileFrom(layers, info, i, layers[..i], n) == Ok((layers, n))
    decreases |layers| - i
  {
    if i < |layers| {
      var l := layers[i];
      assert l in layers;
      LayerOutNoRuns(l, n);
      assert info[i] == [];
      assert layers[..i] + [l] == layers[..i + 1];
      CompileFromIdentity(layers, info, i + 1, n);
      assert CompileFrom(layers, info, i, layers[..i], n) == CompileFrom(layers, info, i + 1, layers[..i] + [l], n + 3 * |info[i]|);
    } else {
      assert layers[..i] == layers;
    }
  }

  /**
   * A circuit whose layers are already local (no cross-node controlled gate,
   * no empty layer, known kinds) compiles to itself and uses no fresh id.
   */
  lemma {:induction false} CompileLocalIdentity(layers: seq<seq<Operation>>, next: nat)
    requires forall l :: l in layers ==> LocalLayer(l)
    ensures Compile(layers, next) == Ok((layers, next))
  {
    NoRunsInLocalCircuit(layers);
    CompileFromIdentity(layers, ControlGateInfo(layers).value, 0, next);
  }

  /** Compiling a compiled circuit again changes nothing. */
  lemma {:induction false} CompileIdempotent(layers: seq<seq<Operation>>, next: nat, next2: nat)
    requires forall l :: l in layers ==> Named(l)
    requires Compile(layers, next).Ok?
    ensures Compile(Compile(layers, next).value.0, next2) == Ok((Compile(layers, next).value.0, next2))
  {
    CompiledIsLocal(layers, next);
    CompileLocalIdentity(Compile(layers, next).value.0, next2);
  }

  /**
   * The target-side gates of a run follow the circuit's own order: slot 4 + j
   * of the run's block applies the run's j-th gate, which the input circuit
   * holds j layers after the run starts, on the same two hosts.
   */
  lemma {:induction false} TargetGatesInCircuitOrder(layers: seq<seq<Operation>>, i: nat, e: GateInfo,
                                                     rid: RunIds, j: nat)
    requires ControlGateInfo(layers).Ok?
    requires i < |layers|
    requires e in ControlGateInfo(layers).value[i]
    requires RunReady(e)
    requires j < |e.operations|
    ensures i + j < |layers|
    ensures Reverse(e.operations)[j] in layers[i + j]
    ensures Reverse(e.operations)[j].hosts == e.hosts && IsControlGateOverTwoHosts(Reverse(e.operations)[j])
    ensures RunSlot(e, rid, DISTRIBUTED_CONTROL_CIRCUIT_LEN / 2 + j)
      == [TargetGate(Reverse(e.operations)[j], rid.epr, e.hosts[1])]
  {
    ControlGateInfoRuns(layers);
    ControlGateInfoOk(layers);
    assert RunAt(e, layers, i);
    RunChronological(e, layers, i);
    var n := |e.operations|;
    assert Reverse(e.operations)[j] == e.operations[n - 1 - j];
  }

  /** The number of runs in the entries from i on. */
  function RunsFrom(info: seq<seq<GateInfo>>, i: nat): nat
    decreases |info| - i
  {
    if i >= |info| then 0 else |info[i]| + RunsFrom(info, i + 1)
  }

  lemma {:induction false} CompileFromCounter(layers: seq<seq<Operation>>, info: seq<seq<GateInfo>>, i: nat,
                                              out: seq<seq<Operation>>, n: nat)
    requires i <= |layers| == |info|
    ensures CompileFrom(layers, info, i, out, n).Ok? ==>
      CompileFrom(layers, info, i, out, n).value.1 == n + 3 * RunsFrom(info, i)
    decreases |layers| - i
  {
    if i < |layers| {
      var added := LayerOut(layers[i], info[i], n);
      if added.Ok? {
        CompileFromCounter(layers, info, i + 1, out + added.value, n + 3 * |info[i]|);
      }
    }
  }

  /**
   * Every run draws exactly three fresh identifiers: the counter the
   * compilation returns is three per run past the one it started from, so
   * ids of different layers never meet.
   */
  lemma {:induction false} CompileCounter(layers: seq<seq<Operation>>, next: nat)
    ensures Compile(layers, next).Ok? ==>
      Compile(layers, next).value.1 == next + 3 * RunsFrom(ControlGateInfo(layers).value, 0)
  {
    ControlGateInfoRuns(layers);
    if ControlGateInfo(layers).Ok? {
      CompileFromCounter(layers, ControlGateInfo(layers).value, 0, [], next);
    }
  }

  lemma PairOfPrefix(head: seq<Operation>, tail: seq<Operation>, r: nat)
    requires |tail| == 2 && 2 * r + 2 <= |head| + 2 && (2 * r + 2 <= |head| || 2 * r == |head|)
    ensures 2 * r + 2 <= |head| ==> (head + tail)[2 * r .. 2 * r + 2] == head[2 * r .. 2 * r + 2]
    ensures 2 * r == |head| ==> (head + tail)[2 * r .. 2 * r + 2] == tail
  {
  }

  lemma {:induction false} EntPairAt(runs: seq<GateInfo>, next: nat, r: nat)
    requires forall e :: e in runs ==> RunReady(e)
    requires r < |runs|
    ensures |EntPairs(runs, next)| == 2 * |runs|
    ensures RunReady(runs[r])
    ensures EntPairs(runs, next)[2 * r .. 2 * r + 2] == EntPair(runs[r], IdsFor(next, r))
    decreases |runs|
  {
    var k := |runs| - 1;
    assert runs[..k + 1] == runs;
    EntPairsSnoc(runs, k, next);
    var head := EntPairs(runs[..k], next);
    var tail := EntPair(runs[k], IdsFor(next, k));
    assert EntPairs(runs, next) == head + tail;
    if r < k {
      EntPairAt(runs[..k], next, r);
      assert runs[..k][r] == runs[r];
      PairOfPrefix(head, tail, r);
    } else {
      if k > 0 {
        EntPairAt(runs[..k], next, k - 1);
      } else {
        assert runs[..k] == [];
      }
      PairOfPrefix(head, tail, r);
    }
  }

  /**
   * The entanglement operations added to the current layer: one SEND_ENT,
   * REC_ENT pair per run, in run order, the pair of run r sharing the EPR
   * qubit FreshId(next + 3r).
   */
  lemma {:induction false} EntPairsLayout(runs: seq<GateInfo>, next: nat)
    requires forall e :: e in runs ==> RunReady(e)
    ensures |EntPairs(runs, next)| == 2 * |runs|
    ensures forall r :: 0 <= r < |runs| ==> RunReady(runs[r])
    ensures forall r :: 0 <= r < |runs| ==>
      EntPairs(runs, next)[2 * r .. 2 * r + 2] == EntPair(runs[r], IdsFor(next, r))
  {
    if runs == [] {
      assert EntPairs(runs, next) == [];
    } else {
      EntPairAt(runs, next, 0);
    }
    forall r | 0 <= r < |runs|
      ensures RunReady(runs[r])
      ensures EntPairs(runs, next)[2 * r .. 2 * r + 2] == EntPair(runs[r], IdsFor(next, r))
    {
      EntPairAt(runs, next, r);
    }
  }

  // ---------------------------------------------------------------------------
  // The three-layer circuit of tests/test_controller_host.py.

  /** The scan of the three-layer circuit finds one run, the CNOT of layer 1 alone. */
  lemma ThreeLayerScan(l1: seq<Operation>, l2: seq<Operation>, l3: seq<Operation>, cx: Operation)
    requires |l1| == 3 && forall op :: op in l1 ==> !IsControlGateOverTwoHosts(op)
    requires |l2| == 2 && l2[0] == cx && IsControlGateOverTwoHosts(cx) && !IsControlGateOverTwoHosts(l2[1])
    requires cx.qids == Some(["qubit_3", "qubit_1"])
    requires |l3| == 1 && !IsControlGateOverTwoHosts(l3[0])
    ensures ControlGateInfo([l1, l2, l3]) == Ok([[], [GateInfo(0, cx.hosts, "qubit_3", [cx])], []])
  {
    var g := GateInfo(0, cx.hosts, "qubit_3", [cx]);
    var rev := [l3, l2, l1];
    assert Reverse([l1, l2, l3]) == rev;
    assert LayerFrom(l3, 0, true, [], []) == Ok(([], []));
    assert ControlQubit(cx) == Ok("qubit_3");
    assert ScanFrom([], 0, cx.hosts, "qubit_3", []) == ([], []);
    var none: seq<Operation> := [];
    var noRuns: seq<GateInfo> := [];
    assert none + [cx] == [cx];
    assert noRuns + [GateInfo(0, cx.hosts, "qubit_3", none + [cx])] == [g];
    assert LayerFrom(l2, 2, false, [], [g]) == Ok(([], [g]));
    assert LayerFrom(l2, 1, false, [], [g]) == Ok(([], [g]));
    assert LayerFrom(l2, 0, false, [], []) == Ok(([], [g]));
    assert l1[0] in l1 && l1[1] in l1 && l1[2] in l1;
    assert LayerFrom(l1, 3, false, [g], []) == Ok(([g], []));
    assert LayerFrom(l1, 2, false, [g], []) == Ok(([g], []));
    assert LayerFrom(l1, 1, false, [g], []) == Ok(([g], []));
    assert LayerFrom(l1, 0, false, [g], []) == Ok(([g], []));
    assert rev[..1] == [l3] && [l3][..0] == [] && rev[..2] == [l3, l2] && [l3, l2][..1] == [l3];
    assert InfoRev([]) == Ok([]);
    var emptyAcc: seq<seq<GateInfo>> := [];
    assert emptyAcc + [noRuns] == [[]];
    assert InfoRev([l3]) == Ok([[]]);
    var acc: seq<seq<GateInfo>> := [[]];
    assert acc[..0] + [[]] + [[g]] == [[], [g]];
    assert InfoRev([l3, l2]) == Ok([[], [g]]);
    acc := [[], [g]];
    assert acc[..1] + [[g]] + [[]] == [[], [g], []];
    assert InfoRev(rev) == Ok([[], [g], []]);
    assert Reverse([[], [g], []]) == [[], [g], []];
  }

  /** A layer without cross-node gates compiles to itself. */
  lemma LocalLayerOut(l: seq<Operation>, n: nat)
    requires l != [] && forall op :: op in l ==> !IsControlGateOverTwoHosts(op)
    ensures LayerOut(l, [], n) == Ok([l])
  {
    KeptAll(l);
    var noRuns: seq<GateInfo> := [];
    assert InfoError(noRuns) == None && EntPairs(noRuns, n) == [] && Block(noRuns, n) == [];
    assert l + EntPairs(noRuns, n) == l;
    var none: seq<seq<Operation>> := [];
    assert Replace(noRuns, l, n) == Ok((l, none));
    assert [l] + none == [l];
  }

  /** The run of one cross-node CNOT can be built: its target qubit is readable. */
  lemma OneGateRun(cx: Operation)
    requires IsControlGateOverTwoHosts(cx) && cx.qids == Some(["qubit_3", "qubit_1"])
    ensures var g := GateInfo(0, cx.hosts, "qubit_3", [cx]);
      RunReady(g) && InfoError([g]) == None && MaxLen([g]) == 1
  {
    var g := GateInfo(0, cx.hosts, "qubit_3", [cx]);
    var none: seq<Operation> := [];
    assert Reverse([cx]) == [cx] by {
      assert [cx][1..] == none;
      assert Reverse(none) + [cx] == [cx];
    }
    assert FirstTargetError([cx]) == None by {
      assert TargetQubit(cx) == Ok("qubit_1");
      assert [cx][1..] == none;
    }
    assert [g][1..] == [] && [g][..0] == [];
  }

  /** A layer of one cross-node CNOT and one local gate: the local gate and the pair, then the 9-layer block. */
  lemma RunLayerOut(cx: Operation, x: Operation, next: nat)
    requires IsControlGateOverTwoHosts(cx) && cx.qids == Some(["qubit_3", "qubit_1"])
    requires !IsControlGateOverTwoHosts(x)
    ensures var g := GateInfo(0, cx.hosts, "qubit_3", [cx]);
      RunReady(g)
      && LayerOut([cx, x], [g], next) == Ok([[x] + EntPair(g, IdsFor(next, 0))] + Block([g], next))
      && |Block([g], next)| == 9
      && Block([g], next)[0] == RunSlot(g, IdsFor(next, 0), 0)
      && Block([g], next)[8] == RunSlot(g, IdsFor(next, 0), 8)
  {
    var g := GateInfo(0, cx.hosts, "qubit_3", [cx]);
    var none: seq<Operation> := [];
    assert Kept([cx, x]) == [x] by {
      assert [cx, x][..1] == [cx] && [cx][..0] == none;
      assert Kept([cx]) == none;
      assert none + [x] == [x];
    }
    OneGateRun(cx);
    assert [g][..0] == [];
    assert EntPairs([g], next) == EntPair(g, IdsFor(next, 0));
    assert Slot([g], next, 0) == RunSlot(g, IdsFor(next, 0), 0);
    assert Slot([g], next, 8) == RunSlot(g, IdsFor(next, 0), 8);
  }

  /** Three layers compile to what each gives, in order, when only the middle one holds a run. */
  lemma ThreeLayerOut(l1: seq<Operation>, l2: seq<Operation>, l3: seq<Operation>, g: GateInfo,
                      mid: seq<seq<Operation>>, next: nat)
    requires LayerOut(l1, [], next) == Ok([l1])
    requires LayerOut(l2, [g], next) == Ok(mid)
    requires LayerOut(l3, [], next + 3) == Ok([l3])
    ensures CompileFrom([l1, l2, l3], [[], [g], []], 0, [], next) == Ok(([l1] + mid + [l3], next + 3))
  {
    var layers, info := [l1, l2, l3], [[], [g], []];
    var out := [l1] + mid + [l3];
    var done: Result<(seq<seq<Operation>>, nat)> := Ok((out, next + 3));
    assert CompileFrom(layers, info, 3, out, next + 3) == done;
    assert CompileFrom(layers, info, 2, [l1] + mid, next + 3) == done;
    assert CompileFrom(layers, info, 1, [l1], next) == done;
    var start: seq<seq<Operation>> := [];
    assert start + [l1] == [l1];
  }

  /**
   * Any circuit shaped like the three-layer test circuit: a local layer of
   * three gates, a layer with the CNOT of qubit_3 onto qubit_1 across two
   * hosts and one local gate, and a local one-gate layer.
   */
  lemma ThreeLayerShape(l1: seq<Operation>, cx: Operation, x: Operation, l3: seq<Operation>, next: nat)
    requires |l1| == 3 && forall op :: op in l1 ==> !IsControlGateOverTwoHosts(op)
    requires IsControlGateOverTwoHosts(cx) && cx.qids == Some(["qubit_3", "qubit_1"])
    requires !IsControlGateOverTwoHosts(x)
    requires |l3| == 1 && !IsControlGateOverTwoHosts(l3[0])
    ensures var r := Compile([l1, [cx, x], l3], next);
      r.Ok? && r.value.1 == next + 3
      && var out := r.value.0;
      |out| == 12 && out[0] == l1 && out[11] == l3
      && |out[1]| == 3 && out[1][0] == x && out[1][1].name == SEND_ENT && out[1][2].name == REC_ENT
      && |out[2]| == 1 && out[2][0].name == TWO_QUBIT && out[2][0].qids == Some(["qubit_3", FreshId(next)])
      && |out[10]| == 1 && out[10][0].name == CLASSICAL_CTRL_GATE && out[10][0].gate == Some(Z)
  {
    var g := GateInfo(0, cx.hosts, "qubit_3", [cx]);
    ThreeLayerScan(l1, [cx, x], l3, cx);
    LocalLayerOut(l1, next);
    assert l3[0] in l3;
    LocalLayerOut(l3, next + 3);
    RunLayerOut(cx, x, next);
    var rid := IdsFor(next, 0);
    var block := Block([g], next);
    var mid := [[x] + EntPair(g, rid)] + block;
    ThreeLayerOut(l1, [cx, x], l3, g, mid, next);
    var out := [l1] + mid + [l3];
    assert out[2] == block[0] && out[10] == block[8];
  }

  /**
   * The three-layer circuit of tests/test_controller_host.py, with the CNOT
   * from QPU_2 to QPU_1 in layer 1, compiles to 12 layers: layer 0 as it was,
   * layer 1 with its X followed by the EPR pair, the 9-layer block of the run,
   * whose first layer holds the CNOT onto the EPR qubit and whose last the
   * classically controlled Z, and the measurement. Three ids are drawn.
   */
  lemma ThreeLayerCircuit(next: nat)
    ensures
      var l1 := [Operation(SINGLE, Some(["qubit_1"]), None, Some(H), None, ["QPU_1"], false),
                 Operation(SINGLE, Some(["qubit_3"]), None, Some(H), None, ["QPU_2"], false),
                 Operation(SINGLE, Some(["qubit_3"]), None, Some(H), None, ["QPU_3"], false)];
      var l2 := [Operation(TWO_QUBIT, Some(["qubit_3", "qubit_1"]), None, Some(CNOT), None, ["QPU_2", "QPU_1"], false),
                 Operation(SINGLE, Some(["qubit_3"]), None, Some(X), None, ["QPU_3"], false)];
      var l3 := [Operation(MEASURE, Some(["qubit_3"]), Some(["bit_1"]), None, None, ["QPU_2"], false)];
      var r := Compile([l1, l2, l3], next);
      r.Ok? && r.value.1 == next + 3
      && var out := r.value.0;
      |out| == 12 && out[0] == l1 && out[11] == l3
      && |out[1]| == 3 && out[1][0] == l2[1] && out[1][1].name == SEND_ENT && out[1][2].name == REC_ENT
      && |out[2]| == 1 && out[2][0].name == TWO_QUBIT && out[2][0].qids == Some(["qubit_3", FreshId(next)])
      && |out[10]| == 1 && out[10][0].name == CLASSICAL_CTRL_GATE && out[10][0].gate == Some(Z)
  {
    var l1 := [Operation(SINGLE, Some(["qubit_1"]), None, Some(H), None, ["QPU_1"], false),
               Operation(SINGLE, Some(["qubit_3"]), None, Some(H), None, ["QPU_2"], false),
               Operation(SINGLE, Some(["qubit_3"]), None, Some(H), None, ["QPU_3"], false)];
    var cx := Operation(TWO_QUBIT, Some(["qubit_3", "qubit_1"]), None, Some(CNOT), None, ["QPU_2", "QPU_1"], false);
    var x := Operation(SINGLE, Some(["qubit_3"]), None, Some(X), None, ["QPU_3"], false);
    var l3 := [Operation(MEASURE, Some(["qubit_3"]), Some(["bit_1"]), None, None, ["QPU_2"], false)];
    ThreeLayerShape(l1, cx, x, l3, next);
  }
}
