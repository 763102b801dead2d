/**
 * The controller host of interlinq/components/controller_host.py: the
 * registry of computing hosts with their timing tables, the duration lookup,
 * and the scheduler that stamps every operation of a (compiled) circuit with
 * the tick its layer starts at and splits the result by executing host.
 */
module Controller {
  import opened Wrappers
  import opened Constants
  import opened OperationTime
  import opened Operations

  /** One entry of a schedule: the operation's dictionary plus the tick its layer starts at. */
  datatype ScheduledOp = ScheduledOp(op: Operation, layerEnd: nat)

  /** The kinds whose duration is looked up per gate. */
  predicate IsGateKind(name: string) {
    name == SINGLE || name == TWO_QUBIT || name == CLASSICAL_CTRL_GATE
  }

  /**
   * _get_operation_execution_time. An unknown host, kind or gate raises
   * KeyError; indexing a scalar entry by gate raises TypeError, and so does a
   * per-gate entry found for a kind without gates (the scheduler's max()
   * cannot compare it with a number).
   */
  function ExecutionTime(gateTime: map<string, Table>, host: string, name: string, gate: Option<string>)
    : (r: Result<nat>)
    ensures r.Ok? ==> host in gateTime && name in gateTime[host]
  {
    if host !in gateTime then Err(KeyError)
    else
      var table := gateTime[host];
      if name !in table then Err(KeyError)
      else if IsGateKind(name) then
        match table[name]
        case Duration(_) => Err(TypeError)
        case PerGate(times) =>
          if gate.Some? && gate.value in times then Ok(times[gate.value]) else Err(KeyError)
      else
        match table[name]
        case Duration(t) => Ok(t)
        case PerGate(_) => Err(TypeError)
  }

  /** The operations the default table can time: a scalar kind, or a gate kind with a listed gate. */
  predicate TimedByDefault(op: Operation) {
    op.name in [PREPARE_QUBITS, MEASURE, SEND_ENT, REC_ENT, SEND_CLASSICAL, REC_CLASSICAL]
    || (op.name == SINGLE && op.gate.Some? && op.gate.value in SingleGateNames)
    || (op.name == TWO_QUBIT && op.gate.Some? && op.gate.value in TwoQubitGateNames)
    || (op.name == CLASSICAL_CTRL_GATE && op.gate.Some?
        && (op.gate.value in SingleGateNames || op.gate.value in TwoQubitGateNames))
  }

  /**
   * Under the default table the lookup succeeds exactly for the operations
   * that table can time, and then every operation takes one tick.
   */
  lemma ExecutionTimeDefault(gateTime: map<string, Table>, host: string, op: Operation)
    requires host in gateTime && gateTime[host] == DefaultOperationTime
    ensures ExecutionTime(gateTime, host, op.name, op.gate).Ok? <==> TimedByDefault(op)
    ensures ExecutionTime(gateTime, host, op.name, op.gate).Ok? ==>
      ExecutionTime(gateTime, host, op.name, op.gate).value == DEFAULT_SINGLE_GATE_TIME
  {
    DefaultOperationTimeShape(op.name);
    if op.gate.Some? {
      GateTablesCoverTheirGates(op.gate.value);
      ClassicalControlTableIsUnion(op.gate.value);
    }
  }

  /** The duration the scheduler charges for one operation (0 where its lookup fails). */
  function OpTicks(gateTime: map<string, Table>, op: Operation): nat {
    if op.hosts == [] then 0
    else
      var r := ExecutionTime(gateTime, op.hosts[0], op.name, op.gate);
      if r.Ok? then r.value else 0
  }

  /**
   * The scan over one layer from operation j on, m being the maximum so far:
   * the layer's duration, or the first lookup failure (IndexError for an
   * operation naming no host).
   */
  function LayerTimeFrom(gateTime: map<string, Table>, layer: seq<Operation>, j: nat, m: nat): Result<nat>
    requires j <= |layer|
    decreases |layer| - j
  {
    if j == |layer| then Ok(m)
    else if layer[j].hosts == [] then Err(IndexError)
    else
      match ExecutionTime(gateTime, layer[j].hosts[0], layer[j].name, layer[j].gate)
      case Err(err) => Err(err)
      case Ok(t) => LayerTimeFrom(gateTime, layer, j + 1, if t > m then t else m)
  }

  function LayerTime(gateTime: map<string, Table>, layer: seq<Operation>): Result<nat> {
    LayerTimeFrom(gateTime, layer, 0, 0)
  }

  /** Every operation of the layer can be timed. */
  predicate Timed(gateTime: map<string, Table>, layer: seq<Operation>) {
    forall j :: 0 <= j < |layer| ==>
      layer[j].hosts != [] && ExecutionTime(gateTime, layer[j].hosts[0], layer[j].name, layer[j].gate).Ok?
  }

  lemma {:induction false} LayerTimeFromIsMax(gateTime: map<string, Table>, layer: seq<Operation>, j: nat, m: nat)
    requires j <= |layer|
    ensures LayerTimeFrom(gateTime, layer, j, m).Ok? <==>
      forall x :: j <= x < |layer| ==>
        layer[x].hosts != [] && ExecutionTime(gateTime, layer[x].hosts[0], layer[x].name, layer[x].gate).Ok?
    ensures LayerTimeFrom(gateTime, layer, j, m).Ok? ==>
      var d := LayerTimeFrom(gateTime, layer, j, m).value;
      m <= d
      && (forall x :: j <= x < |layer| ==> OpTicks(gateTime, layer[x]) <= d)
      && (d == m || exists x :: j <= x < |layer| && OpTicks(gateTime, layer[x]) == d)
    decreases |layer| - j
  {
    if j < |layer| && layer[j].hosts != [] {
      var r := ExecutionTime(gateTime, layer[j].hosts[0], layer[j].name, layer[j].gate);
      if r.Ok? {
        var t := r.value;
        LayerTimeFromIsMax(gateTime, layer, j + 1, if t > m then t else m);
      }
    }
  }

  /**
   * A layer's duration is the maximum of its operations' durations, 0 for an
   * empty layer; the scan fails exactly when some operation cannot be timed.
   */
  lemma {:induction false} LayerTimeIsMax(gateTime: map<string, Table>, layer: seq<Operation>)
    ensures LayerTime(gateTime, layer).Ok? <==> Timed(gateTime, layer)
    ensures LayerTime(gateTime, layer).Ok? ==>
      (forall x :: 0 <= x < |layer| ==> OpTicks(gateTime, layer[x]) <= LayerTime(gateTime, layer).value)
      && (layer == [] ==> LayerTime(gateTime, layer).value == 0)
      && (layer != [] ==> exists x :: 0 <= x < |layer| && OpTicks(gateTime, layer[x]) == LayerTime(gateTime, layer).value)
  {
    LayerTimeFromIsMax(gateTime, layer, 0, 0);
    if LayerTime(gateTime, layer).Ok? && layer != [] {
      assert OpTicks(gateTime, layer[0]) <= LayerTime(gateTime, layer).value;
    }
  }

  /** A layer's duration as a number (0 where the scan fails). */
  function LayerTicks(gateTime: map<string, Table>, layer: seq<Operation>): nat {
    var r := LayerTime(gateTime, layer);
    if r.Ok? then r.value else 0
  }

  /** The sum of the layers' durations. */
  function SumTicks(gateTime: map<string, Table>, layers: seq<seq<Operation>>): nat {
    if layers == [] then 0 else LayerTicks(gateTime, layers[0]) + SumTicks(gateTime, layers[1..])
  }

  /** The number of operations in the layers. */
  function OpCount(layers: seq<seq<Operation>>): nat {
    if layers == [] then 0 else |layers[0]| + OpCount(layers[1..])
  }

  /** Every operation of one layer, stamped with the tick t. */
  function Stamp(layer: seq<Operation>, t: nat): (s: seq<ScheduledOp>)
    ensures |s| == |layer|
  {
    seq(|layer|, j requires 0 <= j < |layer| => ScheduledOp(layer[j], t))
  }

  /** The flat schedule of layers starting at tick t. */
  function Stamps(gateTime: map<string, Table>, layers: seq<seq<Operation>>, t: nat): seq<ScheduledOp> {
    if layers == [] then []
    else Stamp(layers[0], t) + Stamps(gateTime, layers[1..], t + LayerTicks(gateTime, layers[0]))
  }

  /** The scheduler loop from layer i on, with the schedule so far and the running layer-end tick. */
  function TimelineFrom(gateTime: map<string, Table>, layers: seq<seq<Operation>>, i: nat,
                        sched: seq<ScheduledOp>, t: nat): Result<(seq<ScheduledOp>, nat)>
    requires i <= |layers|
    decreases |layers| - i
  {
    if i == |layers| then Ok((sched, t))
    else
      match LayerTime(gateTime, layers[i])
      case Err(err) => Err(err)
      case Ok(d) => TimelineFrom(gateTime, layers, i + 1, sched + Stamp(layers[i], t), t + d)
  }

  /** The intermediate schedule and the maximum tick, or the first lookup failure. */
  function Timeline(gateTime: map<string, Table>, layers: seq<seq<Operation>>): Result<(seq<ScheduledOp>, nat)> {
    TimelineFrom(gateTime, layers, 0, [], 0)
  }

  /** The entries whose first host is h, in schedule order. */
  function OpsOn(sched: seq<ScheduledOp>, h: string): seq<ScheduledOp> {
    if sched == [] then []
    else
      var last := sched[|sched| - 1];
      OpsOn(sched[..|sched| - 1], h) + (if last.op.hosts != [] && last.op.hosts[0] == h then [last] else [])
  }

  /** One schedule per registered host. */
  function Split(sched: seq<ScheduledOp>, hostIds: seq<string>): map<string, seq<ScheduledOp>> {
    map h | h in hostIds :: OpsOn(sched, h)
  }

  /** _create_distributed_schedules: the per-host schedules and the maximum tick. */
  function Schedules(gateTime: map<string, Table>, hostIds: seq<string>, layers: seq<seq<Operation>>)
    : Result<(map<string, seq<ScheduledOp>>, nat)>
  {
    match Timeline(gateTime, layers)
    case Err(err) => Err(err)
    case Ok(p) => Ok((Split(p.0, hostIds), p.1))
  }

  /** The table connect_hosts registers for the i-th host. */
  function TableFor(tables: Option<seq<Option<Table>>>, i: nat): Result<Table> {
    if tables.None? || |tables.value| == 0 then Ok(DefaultOperationTime)
    else if i >= |tables.value| then Err(IndexError)
    else if tables.value[i].None? then Ok(DefaultOperationTime)
    else Ok(tables.value[i].value)
  }

  /** The timing map after registering the first k hosts of ids (a later duplicate overrides). */
  function Registered(gateTime: map<string, Table>, ids: seq<string>, tables: Option<seq<Option<Table>>>, k: nat)
    : map<string, Table>
    requires k <= |ids|
  {
    if k == 0 then gateTime
    else
      var t := TableFor(tables, k - 1);
      Registered(gateTime, ids, tables, k - 1)[ids[k - 1] := if t.Ok? then t.value else DefaultOperationTime]
  }

  /** How many hosts connect_hosts registers before it fails (all of them when it does not). */
  function RegisteredCount(ids: seq<string>, tables: Option<seq<Option<Table>>>): nat {
    if tables.None? || |tables.value| == 0 || |tables.value| >= |ids| then |ids| else |tables.value|
  }

  lemma {:induction false} StampsLength(gateTime: map<string, Table>, layers: seq<seq<Operation>>, t: nat)
    ensures |Stamps(gateTime, layers, t)| == OpCount(layers)
    decreases |layers|
  {
    if layers != [] {
      StampsLength(gateTime, layers[1..], t + LayerTicks(gateTime, layers[0]));
    }
  }

  lemma PrefixCons(gateTime: map<string, Table>, layers: seq<seq<Operation>>, k: nat)
    requires 0 < k <= |layers|
    ensures OpCount(layers[..k]) == |layers[0]| + OpCount(layers[1..][..k - 1])
    ensures SumTicks(gateTime, layers[..k]) == LayerTicks(gateTime, layers[0]) + SumTicks(gateTime, layers[1..][..k - 1])
  {
    assert layers[..k][0] == layers[0] && layers[..k][1..] == layers[1..][..k - 1];
  }

  /** Operation j of layer k sits after every operation of the earlier layers and starts once they have all ended. */
  lemma {:induction false} StampsAt(gateTime: map<string, Table>, layers: seq<seq<Operation>>, t: nat, k: nat, j: nat)
    requires k < |layers| && j < |layers[k]|
    ensures OpCount(layers[..k]) + |layers[k]| <= |Stamps(gateTime, layers, t)|
    ensures Stamps(gateTime, layers, t)[OpCount(layers[..k]) + j]
      == ScheduledOp(layers[k][j], t + SumTicks(gateTime, layers[..k]))
    decreases k
  {
    var d := LayerTicks(gateTime, layers[0]);
    var head := Stamp(layers[0], t);
    var rest := Stamps(gateTime, layers[1..], t + d);
    assert Stamps(gateTime, layers, t) == head + rest;
    if k == 0 {
      StampsLength(gateTime, layers, t);
      assert layers[..0] == [];
    } else {
      StampsAt(gateTime, layers[1..], t + d, k - 1, j);
      PrefixCons(gateTime, layers, k);
      var x := OpCount(layers[1..][..k - 1]) + j;
      assert (head + rest)[|head| + x] == rest[x];
    }
  }

  lemma {:induction false} TimelineFromOk(gateTime: map<string, Table>, layers: seq<seq<Operation>>, i: nat,
                                          sched: seq<ScheduledOp>, t: nat)
    requires i <= |layers|
    ensures TimelineFrom(gateTime, layers, i, sched, t).Ok? <==>
      forall k :: i <= k < |layers| ==> Timed(gateTime, layers[k])
    decreases |layers| - i
  {
    if i < |layers| {
      LayerTimeIsMax(gateTime, layers[i]);
      var r := LayerTime(gateTime, layers[i]);
      if r.Ok? {
        TimelineFromOk(gateTime, layers, i + 1, sched + Stamp(layers[i], t), t + r.value);
      }
    }
  }

  lemma StampsSuffix(gateTime: map<string, Table>, layers: seq<seq<Operation>>, i: nat, t: nat)
    requires i < |layers|
    ensures Stamps(gateTime, layers[i..], t)
      == Stamp(layers[i], t) + Stamps(gateTime, layers[i + 1..], t + LayerTicks(gateTime, layers[i]))
    ensures SumTicks(gateTime, layers[i..]) == LayerTicks(gateTime, layers[i]) + SumTicks(gateTime, layers[i + 1..])
  {
    assert layers[i..][0] == layers[i] && layers[i..][1..] == layers[i + 1..];
  }

  lemma TimelineStep(gateTime: map<string, Table>, layers: seq<seq<Operation>>, i: nat,
                     sched: seq<ScheduledOp>, t: nat)
    requires i < |layers| && LayerTime(gateTime, layers[i]).Ok?
    ensures TimelineFrom(gateTime, layers, i, sched, t)
      == TimelineFrom(gateTime, layers, i + 1, sched + Stamp(layers[i], t), t + LayerTime(gateTime, layers[i]).value)
  {
  }

  lemma {:induction false} TimelineFromStamps(gateTime: map<string, Table>, layers: seq<seq<Operation>>, i: nat,
                                              sched: seq<ScheduledOp>, t: nat)
    requires i <= |layers|
    requires TimelineFrom(gateTime, layers, i, sched, t).Ok?
    ensures TimelineFrom(gateTime, layers, i, sched, t).value
      == (sched + Stamps(gateTime, layers[i..], t), t + SumTicks(gateTime, layers[i..]))
    decreases |layers| - i
  {
    if i == |layers| {
      assert layers[i..] == [];
      assert Stamps(gateTime, [], t) == [] && SumTicks(gateTime, []) == 0;
      assert sched + [] == sched;
    } else {
      var d := LayerTime(gateTime, layers[i]).value;
      TimelineStep(gateTime, layers, i, sched, t);
      TimelineFromStamps(gateTime, layers, i + 1, sched + Stamp(layers[i], t), t + d);
      StampsSuffix(gateTime, layers, i, t);
      var tail := Stamps(gateTime, layers[i + 1..], t + d);
      assert sched + Stamp(layers[i], t) + tail == sched + (Stamp(layers[i], t) + tail);
    }
  }

  /**
   * Layer k occupies entries OpCount(layers[..k]) up to the next layer's start:
   * its operation j is entry OpCount(layers[..k]) + j, stamped with the summed
   * durations of the layers before k.
   */
  predicate StampedInOrder(gateTime: map<string, Table>, layers: seq<seq<Operation>>, sched: seq<ScheduledOp>) {
    forall k :: 0 <= k < |layers| ==>
      OpCount(layers[..k]) + |layers[k]| <= |sched|
      && forall j :: 0 <= j < |layers[k]| ==>
           sched[OpCount(layers[..k]) + j] == ScheduledOp(layers[k][j], SumTicks(gateTime, layers[..k]))
  }

  lemma StampsInOrder(gateTime: map<string, Table>, layers: seq<seq<Operation>>)
    ensures StampedInOrder(gateTime, layers, Stamps(gateTime, layers, 0))
  {
    var st := Stamps(gateTime, layers, 0);
    forall k | 0 <= k < |layers|
      ensures OpCount(layers[..k]) + |layers[k]| <= |st|
      ensures forall j :: 0 <= j < |layers[k]| ==>
        st[OpCount(layers[..k]) + j] == ScheduledOp(layers[k][j], SumTicks(gateTime, layers[..k]))
    {
      if layers[k] == [] {
        StampsLength(gateTime, layers, 0);
        OpCountPrefix(layers, k);
      } else {
        StampsAt(gateTime, layers, 0, k, 0);
      }
      forall j | 0 <= j < |layers[k]|
        ensures st[OpCount(layers[..k]) + j] == ScheduledOp(layers[k][j], SumTicks(gateTime, layers[..k]))
      {
        StampsAt(gateTime, layers, 0, k, j);
      }
    }
  }

  lemma {:induction false} OpCountPrefix(layers: seq<seq<Operation>>, k: nat)
    requires k <= |layers|
    ensures OpCount(layers[..k]) <= OpCount(layers)
    decreases k
  {
    if k > 0 {
      assert layers[..k][0] == layers[0] && layers[..k][1..] == layers[1..][..k - 1];
      OpCountPrefix(layers[1..], k - 1);
    }
  }

  /**
   * The scheduler stamps operation j of layer k with the sum of the durations
   * of layers 0..k-1 (each the maximum over its operations, 0 when empty), keeps
   * circuit order, and returns the sum over all layers as the maximum tick. It
   * fails exactly when some operation cannot be timed.
   */
  lemma {:induction false} TimelineStamps(gateTime: map<string, Table>, layers: seq<seq<Operation>>)
    ensures Timeline(gateTime, layers).Ok? <==> forall k :: 0 <= k < |layers| ==> Timed(gateTime, layers[k])
    ensures Timeline(gateTime, layers).Ok? ==>
      Timeline(gateTime, layers).value.1 == SumTicks(gateTime, layers)
      && |Timeline(gateTime, layers).value.0| == OpCount(layers)
    ensures Timeline(gateTime, layers).Ok? ==> StampedInOrder(gateTime, layers, Timeline(gateTime, layers).value.0)
  {
    TimelineFromOk(gateTime, layers, 0, [], 0);
    if Timeline(gateTime, layers).Ok? {
      TimelineFromStamps(gateTime, layers, 0, [], 0);
      assert layers[0..] == layers;
      var st := Stamps(gateTime, layers, 0);
      assert [] + st == st;
      assert Timeline(gateTime, layers).value.0 == st;
      StampsLength(gateTime, layers, 0);
      StampsInOrder(gateTime, layers);
    }
  }

  /** Entries in non-decreasing tick order. */
  predicate Ordered(s: seq<ScheduledOp>) {
    forall a, b :: 0 <= a < b < |s| ==> s[a].layerEnd <= s[b].layerEnd
  }

  /** Every entry starts at lo or later and has finished by hi. */
  predicate Within(gateTime: map<string, Table>, s: seq<ScheduledOp>, lo: nat, hi: nat) {
    forall a :: 0 <= a < |s| ==> lo <= s[a].layerEnd && s[a].layerEnd + OpTicks(gateTime, s[a].op) <= hi
  }

  lemma OrderedConcat(x: seq<ScheduledOp>, y: seq<ScheduledOp>, mid: nat)
    requires Ordered(x) && Ordered(y)
    requires forall a :: 0 <= a < |x| ==> x[a].layerEnd <= mid
    requires forall b :: 0 <= b < |y| ==> mid <= y[b].layerEnd
    ensures Ordered(x + y)
  {
    forall a, b | 0 <= a < b < |x + y| ensures (x + y)[a].layerEnd <= (x + y)[b].layerEnd {
      if b < |x| {
      } else if a >= |x| {
        assert (x + y)[a] == y[a - |x|] && (x + y)[b] == y[b - |x|];
      }
    }
  }

  lemma WithinConcat(gateTime: map<string, Table>, x: seq<ScheduledOp>, y: seq<ScheduledOp>, lo: nat, hi: nat)
    requires Within(gateTime, x, lo, hi) && Within(gateTime, y, lo, hi)
    ensures Within(gateTime, x + y, lo, hi)
  {
    forall a | 0 <= a < |x + y|
      ensures lo <= (x + y)[a].layerEnd && (x + y)[a].layerEnd + OpTicks(gateTime, (x + y)[a].op) <= hi
    {
      if a >= |x| {
        assert (x + y)[a] == y[a - |x|];
      }
    }
  }

  lemma {:induction false} StampsBounded(gateTime: map<string, Table>, layers: seq<seq<Operation>>, t: nat)
    requires forall k :: 0 <= k < |layers| ==> Timed(gateTime, layers[k])
    ensures Ordered(Stamps(gateTime, layers, t))
    ensures Within(gateTime, Stamps(gateTime, layers, t), t, t + SumTicks(gateTime, layers))
    decreases |layers|
  {
    if layers != [] {
      var l := layers[0];
      var d := LayerTicks(gateTime, l);
      var hi := t + SumTicks(gateTime, layers);
      LayerTimeIsMax(gateTime, l);
      StampsBounded(gateTime, layers[1..], t + d);
      var head := Stamp(l, t);
      var rest := Stamps(gateTime, layers[1..], t + d);
      assert Within(gateTime, head, t, hi) by {
        forall a | 0 <= a < |head| ensures head[a].layerEnd + OpTicks(gateTime, head[a].op) <= hi {
          assert head[a].op == l[a];
        }
      }
      assert Within(gateTime, rest, t, hi);
      WithinConcat(gateTime, head, rest, t, hi);
      OrderedConcat(head, rest, t + d);
    }
  }

  /**
   * Ticks never decrease along the schedule, and no operation is still
   * running after the returned maximum tick.
   */
  lemma {:induction false} TimelineOrdered(gateTime: map<string, Table>, layers: seq<seq<Operation>>)
    ensures Timeline(gateTime, layers).Ok? ==>
      var (sched, total) := Timeline(gateTime, layers).value;
      Ordered(sched) && Within(gateTime, sched, 0, total)
  {
    TimelineFromOk(gateTime, layers, 0, [], 0);
    if Timeline(gateTime, layers).Ok? {
      TimelineFromStamps(gateTime, layers, 0, [], 0);
      assert layers[0..] == layers;
      assert [] + Stamps(gateTime, layers, 0) == Stamps(gateTime, layers, 0);
      StampsBounded(gateTime, layers, 0);
    }
  }

  /** The entries on host h are exactly the schedule's entries whose first host is h. */
  lemma {:induction false} OpsOnMembers(sched: seq<ScheduledOp>, h: string)
    ensures forall x :: x in OpsOn(sched, h) <==> x in sched && x.op.hosts != [] && x.op.hosts[0] == h
    ensures |OpsOn(sched, h)| <= |sched|
    decreases |sched|
  {
    if sched != [] {
      var k := |sched| - 1;
      assert sched == sched[..k] + [sched[k]];
      OpsOnMembers(sched[..k], h);
    }
  }

  /** Filtering by host keeps the schedule's tick order. */
  lemma {:induction false} OpsOnOrdered(sched: seq<ScheduledOp>, h: string)
    requires Ordered(sched)
    ensures Ordered(OpsOn(sched, h))
    decreases |sched|
  {
    if sched != [] {
      var k := |sched| - 1;
      var pre := sched[..k];
      assert Ordered(pre);
      OpsOnOrdered(pre, h);
      OpsOnMembers(pre, h);
      var f := OpsOn(pre, h);
      forall a | 0 <= a < |f| ensures f[a].layerEnd <= sched[k].layerEnd {
        assert f[a] in pre;
      }
      OrderedConcat(f, if sched[k].op.hosts != [] && sched[k].op.hosts[0] == h then [sched[k]] else [],
                    sched[k].layerEnd);
    }
  }

  /**
   * The per-host schedules: one per registered host and no other; each holds,
   * in tick order, exactly the stamped operations whose first host it is, every
   * one finished by the maximum tick; operations on unregistered hosts appear
   * in none.
   */
  lemma {:induction false} SchedulesPerHost(gateTime: map<string, Table>, hostIds: seq<string>,
                                            layers: seq<seq<Operation>>)
    ensures Schedules(gateTime, hostIds, layers).Ok? <==> Timeline(gateTime, layers).Ok?
    ensures Schedules(gateTime, hostIds, layers).Ok? ==>
      var (per, total) := Schedules(gateTime, hostIds, layers).value;
      var sched := Timeline(gateTime, layers).value.0;
      total == SumTicks(gateTime, layers)
      && (forall h :: h in per <==> h in hostIds)
      && (forall h, x :: h in per && x in per[h] ==> x in sched && x.op.hosts != [] && x.op.hosts[0] == h)
      && (forall x :: x in sched && x.op.hosts != [] && x.op.hosts[0] in hostIds ==> x in per[x.op.hosts[0]])
      && (forall h :: h in per ==> Ordered(per[h]) && Within(gateTime, per[h], 0, total))
  {
    TimelineStamps(gateTime, layers);
    TimelineOrdered(gateTime, layers);
    if Timeline(gateTime, layers).Ok? {
      var (sched, total) := Timeline(gateTime, layers).value;
      forall h | h in hostIds
        ensures Ordered(OpsOn(sched, h)) && Within(gateTime, OpsOn(sched, h), 0, total)
        ensures forall x :: x in OpsOn(sched, h) <==> x in sched && x.op.hosts != [] && x.op.hosts[0] == h
      {
        OpsOnMembers(sched, h);
        OpsOnOrdered(sched, h);
        var f := OpsOn(sched, h);
        forall a | 0 <= a < |f| ensures f[a].layerEnd + OpTicks(gateTime, f[a].op) <= total {
          assert f[a] in sched;
        }
      }
    }
  }

  /** The number of non-empty layers. */
  function NonEmptyLayers(layers: seq<seq<Operation>>): nat {
    if layers == [] then 0 else (if layers[0] == [] then 0 else 1) + NonEmptyLayers(layers[1..])
  }

  /** Every operation names a host that has the default table and is of a kind that table times. */
  predicate DefaultTimed(gateTime: map<string, Table>, layer: seq<Operation>) {
    forall j :: 0 <= j < |layer| ==>
      layer[j].hosts != [] && layer[j].hosts[0] in gateTime
      && gateTime[layer[j].hosts[0]] == DefaultOperationTime && TimedByDefault(layer[j])
  }

  lemma {:induction false} DefaultLayerTicks(gateTime: map<string, Table>, layer: seq<Operation>)
    requires DefaultTimed(gateTime, layer)
    ensures Timed(gateTime, layer)
    ensures LayerTicks(gateTime, layer) == if layer == [] then 0 else 1
  {
    forall j | 0 <= j < |layer|
      ensures ExecutionTime(gateTime, layer[j].hosts[0], layer[j].name, layer[j].gate) == Ok(1)
    {
      ExecutionTimeDefault(gateTime, layer[j].hosts[0], layer[j]);
    }
    LayerTimeIsMax(gateTime, layer);
  }

  /**
   * With default tables everywhere, every non-empty layer takes one tick: the
   * maximum tick is the number of non-empty layers.
   */
  lemma {:induction false} DefaultMaxTick(gateTime: map<string, Table>, layers: seq<seq<Operation>>)
    requires forall k :: 0 <= k < |layers| ==> DefaultTimed(gateTime, layers[k])
    ensures Timeline(gateTime, layers).Ok?
    ensures Timeline(gateTime, layers).value.1 == NonEmptyLayers(layers)
  {
    forall k | 0 <= k < |layers| ensures Timed(gateTime, layers[k]) {
      DefaultLayerTicks(gateTime, layers[k]);
    }
    TimelineStamps(gateTime, layers);
    DefaultSum(gateTime, layers);
  }

  lemma {:induction false} DefaultSum(gateTime: map<string, Table>, layers: seq<seq<Operation>>)
    requires forall k :: 0 <= k < |layers| ==> DefaultTimed(gateTime, layers[k])
    ensures SumTicks(gateTime, layers) == NonEmptyLayers(layers)
    decreases |layers|
  {
    if layers != [] {
      DefaultLayerTicks(gateTime, layers[0]);
      assert forall k :: 0 <= k < |layers| - 1 ==> layers[1..][k] == layers[k + 1];
      DefaultSum(gateTime, layers[1..]);
    }
  }

  /** Filtering by host distributes over concatenation. */
  lemma {:induction false} OpsOnConcat(a: seq<ScheduledOp>, b: seq<ScheduledOp>, h: string)
    ensures OpsOn(a + b, h) == OpsOn(a, h) + OpsOn(b, h)
    decreases |b|
  {
    if b == [] {
      assert a + b == a && OpsOn(a, h) + [] == OpsOn(a, h);
    } else {
      var k := |b| - 1;
      assert (a + b)[..|a + b| - 1] == a + b[..k] && (a + b)[|a + b| - 1] == b[k];
      OpsOnConcat(a, b[..k], h);
    }
  }

  /** A stamped layer filtered by host h: the layer's operations whose first host is h, in layer order. */
  lemma {:induction false} OpsOnStamp(layer: seq<Operation>, t: nat, h: string)
    ensures OpsOn(Stamp(layer, t), h) == Stamp(OnHost(layer, h), t)
    decreases |layer|
  {
    if layer != [] {
      var k := |layer| - 1;
      assert Stamp(layer, t)[..k] == Stamp(layer[..k], t);
      OpsOnStamp(layer[..k], t, h);
      var last := if layer[k].hosts != [] && layer[k].hosts[0] == h then [layer[k]] else [];
      assert Stamp(OnHost(layer[..k], h), t) + Stamp(last, t) == Stamp(OnHost(layer[..k], h) + last, t);
    }
  }

  /** The operations of a layer whose first host is h, in layer order. */
  function OnHost(layer: seq<Operation>, h: string): seq<Operation> {
    if layer == [] then []
    else
      var k := |layer| - 1;
      OnHost(layer[..k], h) + (if layer[k].hosts != [] && layer[k].hosts[0] == h then [layer[k]] else [])
  }

  /** A layer of one operation filtered by host h. */
  lemma OnHostOne(x: Operation, h: string)
    ensures OnHost([x], h) == if x.hosts != [] && x.hosts[0] == h then [x] else []
  {
    assert [x][..0] == [];
    assert OnHost([], h) == [];
  }

  /** Under default tables, a non-empty layer takes exactly one tick. */
  lemma DefaultLayerTime(gateTime: map<string, Table>, layer: seq<Operation>)
    requires DefaultTimed(gateTime, layer) && layer != []
    ensures LayerTime(gateTime, layer) == Ok(1)
  {
    DefaultLayerTicks(gateTime, layer);
    LayerTimeIsMax(gateTime, layer);
  }

  /**
   * The scheduler over five non-empty one-tick layers stamps layer i with
   * tick i and ends at tick 5.
   */
  lemma FiveLayerTimeline(gateTime: map<string, Table>, layers: seq<seq<Operation>>)
    requires |layers| == 5 && forall k :: 0 <= k < 5 ==> DefaultTimed(gateTime, layers[k]) && layers[k] != []
    ensures Timeline(gateTime, layers) == Ok((Stamp(layers[0], 0) + Stamp(layers[1], 1) + Stamp(layers[2], 2)
      + Stamp(layers[3], 3) + Stamp(layers[4], 4), 5))
  {
    var s1 := Stamp(layers[0], 0);
    var s2 := s1 + Stamp(layers[1], 1);
    var s3 := s2 + Stamp(layers[2], 2);
    var s4 := s3 + Stamp(layers[3], 3);
    var s5 := s4 + Stamp(layers[4], 4);
    DefaultLayerTime(gateTime, layers[0]);
    assert [] + Stamp(layers[0], 0) == s1;
    TimelineStep(gateTime, layers, 0, [], 0);
    DefaultLayerTime(gateTime, layers[1]);
    TimelineStep(gateTime, layers, 1, s1, 1);
    DefaultLayerTime(gateTime, layers[2]);
    TimelineStep(gateTime, layers, 2, s2, 2);
    DefaultLayerTime(gateTime, layers[3]);
    TimelineStep(gateTime, layers, 3, s3, 3);
    DefaultLayerTime(gateTime, layers[4]);
    TimelineStep(gateTime, layers, 4, s4, 4);
    assert TimelineFrom(gateTime, layers, 5, s5, 5) == Ok((s5, 5));
  }

  /** Stamping layers of up to two operations. */
  lemma StampSmall(x: Operation, y: Operation, t: nat)
    ensures Stamp([], t) == [] && Stamp([x], t) == [ScheduledOp(x, t)]
    ensures Stamp([x, y], t) == [ScheduledOp(x, t), ScheduledOp(y, t)]
  {
  }

  /** A five-layer schedule filtered by host h is the concatenation of its layers' filtered stamps. */
  lemma OpsOnFive(layers: seq<seq<Operation>>, h: string)
    requires |layers| == 5
    ensures OpsOn(Stamp(layers[0], 0) + Stamp(layers[1], 1) + Stamp(layers[2], 2) + Stamp(layers[3], 3)
      + Stamp(layers[4], 4), h)
      == Stamp(OnHost(layers[0], h), 0) + Stamp(OnHost(layers[1], h), 1) + Stamp(OnHost(layers[2], h), 2)
      + Stamp(OnHost(layers[3], h), 3) + Stamp(OnHost(layers[4], h), 4)
  {
    var a, b, c, d, e := Stamp(layers[0], 0), Stamp(layers[1], 1), Stamp(layers[2], 2), Stamp(layers[3], 3),
      Stamp(layers[4], 4);
    OpsOnConcat(a + b + c + d, e, h);
    OpsOnConcat(a + b + c, d, h);
    OpsOnConcat(a + b, c, h);
    OpsOnConcat(a, b, h);
    OpsOnStamp(layers[0], 0, h);
    OpsOnStamp(layers[1], 1, h);
    OpsOnStamp(layers[2], 2, h);
    OpsOnStamp(layers[3], 3, h);
    OpsOnStamp(layers[4], 4, h);
  }

  /** The layers' operations by first host: a layer of three, then layers of one, one, two and one. */
  lemma TwoHostOnHost(hg: Operation, se: Operation, re: Operation, cx: Operation, me: Operation,
                      sc: Operation, rc: Operation, cc: Operation)
    requires hg.hosts == ["QPU_1"] && se.hosts == ["QPU_1", "QPU_2"] && re.hosts == ["QPU_2", "QPU_1"]
    requires cx.hosts == ["QPU_2"] && me.hosts == ["QPU_2"] && sc.hosts == ["QPU_2", "QPU_1"]
    requires rc.hosts == ["QPU_1", "QPU_2"] && cc.hosts == ["QPU_1"]
    ensures OnHost([hg, se, re], "QPU_1") == [hg, se] && OnHost([hg, se, re], "QPU_2") == [re]
    ensures OnHost([cx], "QPU_1") == [] && OnHost([cx], "QPU_2") == [cx]
    ensures OnHost([me], "QPU_1") == [] && OnHost([me], "QPU_2") == [me]
    ensures OnHost([sc, rc], "QPU_1") == [rc] && OnHost([sc, rc], "QPU_2") == [sc]
    ensures OnHost([cc], "QPU_1") == [cc] && OnHost([cc], "QPU_2") == []
  {
    assert [hg, se, re][..2] == [hg, se] && [hg, se][..1] == [hg] && [hg][..0] == [];
    assert [cx][..0] == [] && [me][..0] == [] && [cc][..0] == [];
    assert [sc, rc][..1] == [sc] && [sc][..0] == [];
    assert [] + [hg] == [hg] && [] + [sc] == [sc] && [hg] + [se] == [hg, se];
    OnHostOne(hg, "QPU_1");
    OnHostOne(hg, "QPU_2");
    assert OnHost([hg, se], "QPU_1") == [hg, se] && OnHost([hg, se], "QPU_2") == [];
    assert OnHost([sc], "QPU_1") == [] && OnHost([sc], "QPU_2") == [sc];
  }

  /** The per-host schedules of the five layers of TwoHostSchedule, for any operations on those hosts. */
  lemma TwoHostSplit(hg: Operation, se: Operation, re: Operation, cx: Operation, me: Operation,
                     sc: Operation, rc: Operation, cc: Operation)
    requires hg.hosts == ["QPU_1"] && se.hosts == ["QPU_1", "QPU_2"] && re.hosts == ["QPU_2", "QPU_1"]
    requires cx.hosts == ["QPU_2"] && me.hosts == ["QPU_2"] && sc.hosts == ["QPU_2", "QPU_1"]
    requires rc.hosts == ["QPU_1", "QPU_2"] && cc.hosts == ["QPU_1"]
    ensures var layers := [[hg, se, re], [cx], [me], [sc, rc], [cc]];
      Split(Stamp(layers[0], 0) + Stamp(layers[1], 1) + Stamp(layers[2], 2) + Stamp(layers[3], 3)
        + Stamp(layers[4], 4), ["QPU_1", "QPU_2"])
      == map["QPU_1" := [ScheduledOp(hg, 0), ScheduledOp(se, 0), ScheduledOp(rc, 3), ScheduledOp(cc, 4)],
             "QPU_2" := [ScheduledOp(re, 0), ScheduledOp(cx, 1), ScheduledOp(me, 2), ScheduledOp(sc, 3)]]
  {
    var layers := [[hg, se, re], [cx], [me], [sc, rc], [cc]];
    var sched := Stamp(layers[0], 0) + Stamp(layers[1], 1) + Stamp(layers[2], 2) + Stamp(layers[3], 3)
      + Stamp(layers[4], 4);
    TwoHostOnHost(hg, se, re, cx, me, sc, rc, cc);
    OpsOnFive(layers, "QPU_1");
    OpsOnFive(layers, "QPU_2");
    StampSmall(hg, se, 0);
    StampSmall(re, re, 0);
    StampSmall(cx, cx, 1);
    StampSmall(me, me, 2);
    StampSmall(rc, rc, 3);
    StampSmall(sc, sc, 3);
    StampSmall(cc, cc, 4);
    StampSmall(cc, cc, 1);
    StampSmall(cc, cc, 2);
    var p1 := [ScheduledOp(hg, 0), ScheduledOp(se, 0), ScheduledOp(rc, 3), ScheduledOp(cc, 4)];
    var p2 := [ScheduledOp(re, 0), ScheduledOp(cx, 1), ScheduledOp(me, 2), ScheduledOp(sc, 3)];
    assert OpsOn(sched, "QPU_1") == p1;
    assert OpsOn(sched, "QPU_2") == p2;
  }

  /**
   * The two-host circuit of five layers from tests/test_controller_host.py,
   * under default tables: QPU_1 runs H, SEND_ENT, REC_CLASSICAL and the
   * classically controlled X, QPU_2 runs REC_ENT, CNOT, MEASURE and
   * SEND_CLASSICAL, each stamped with the index of its layer, and the
   * maximum tick is 5.
   */
  lemma TwoHostSchedule()
    ensures
      var hg := Operation(SINGLE, Some(["qubit_1"]), None, Some(H), None, ["QPU_1"], false);
      var se := Operation(SEND_ENT, Some(["qubit_2"]), None, None, None, ["QPU_1", "QPU_2"], false);
      var re := Operation(REC_ENT, Some(["qubit_2"]), None, None, None, ["QPU_2", "QPU_1"], false);
      var cx := Operation(TWO_QUBIT, Some(["qubit_2", "qubit_4"]), None, Some(CNOT), None, ["QPU_2"], false);
      var me := Operation(MEASURE, Some(["qubit_2"]), Some(["bit_1"]), None, None, ["QPU_2"], false);
      var sc := Operation(SEND_CLASSICAL, None, Some(["bit_1"]), None, None, ["QPU_2", "QPU_1"], false);
      var rc := Operation(REC_CLASSICAL, None, Some(["bit_1"]), None, None, ["QPU_1", "QPU_2"], false);
      var cc := Operation(CLASSICAL_CTRL_GATE, Some(["qubit_1"]), Some(["bit_1"]), Some(X), None, ["QPU_1"], false);
      var gateTime := map["QPU_1" := DefaultOperationTime, "QPU_2" := DefaultOperationTime];
      Schedules(gateTime, ["QPU_1", "QPU_2"], [[hg, se, re], [cx], [me], [sc, rc], [cc]]) == Ok((map[
        "QPU_1" := [ScheduledOp(hg, 0), ScheduledOp(se, 0), ScheduledOp(rc, 3), ScheduledOp(cc, 4)],
        "QPU_2" := [ScheduledOp(re, 0), ScheduledOp(cx, 1), ScheduledOp(me, 2), ScheduledOp(sc, 3)]], 5))
  {
    var hg := Operation(SINGLE, Some(["qubit_1"]), None, Some(H), None, ["QPU_1"], false);
    var se := Operation(SEND_ENT, Some(["qubit_2"]), None, None, None, ["QPU_1", "QPU_2"], false);
    var re := Operation(REC_ENT, Some(["qubit_2"]), None, None, None, ["QPU_2", "QPU_1"], false);
    var cx := Operation(TWO_QUBIT, Some(["qubit_2", "qubit_4"]), None, Some(CNOT), None, ["QPU_2"], false);
    var me := Operation(MEASURE, Some(["qubit_2"]), Some(["bit_1"]), None, None, ["QPU_2"], false);
    var sc := Operation(SEND_CLASSICAL, None, Some(["bit_1"]), None, None, ["QPU_2", "QPU_1"], false);
    var rc := Operation(REC_CLASSICAL, None, Some(["bit_1"]), None, None, ["QPU_1", "QPU_2"], false);
    var cc := Operation(CLASSICAL_CTRL_GATE, Some(["qubit_1"]), Some(["bit_1"]), Some(X), None, ["QPU_1"], false);
    var gateTime := map["QPU_1" := DefaultOperationTime, "QPU_2" := DefaultOperationTime];
    var layers := [[hg, se, re], [cx], [me], [sc, rc], [cc]];
    assert forall k :: 0 <= k < 5 ==> DefaultTimed(gateTime, layers[k]) && layers[k] != [];
    FiveLayerTimeline(gateTime, layers);
    TwoHostSplit(hg, se, re, cx, me, sc, rc, cc);
  }

  class ControllerHost {
    var computingHostIds: seq<string>
    var gateTime: map<string, Table>

    /** Without a timing map every listed host gets the default table. */
    constructor (hostIds: seq<string>, gateTimes: Option<map<string, Table>>)
      ensures computingHostIds == hostIds
      ensures gateTimes.Some? ==> gateTime == gateTimes.value
      ensures gateTimes.None? ==> gateTime == map h | h in hostIds :: DefaultOperationTime
    {
      computingHostIds := hostIds;
      if gateTimes.None? {
        var table: map<string, Table> := map[];
        for i := 0 to |hostIds|
          invariant table == map h | h in hostIds[..i] :: DefaultOperationTime
        {
          assert hostIds[..i + 1] == hostIds[..i] + [hostIds[i]];
          table := table[hostIds[i] := DefaultOperationTime];
        }
        assert hostIds[..|hostIds|] == hostIds;
        gateTime := table;
      } else {
        gateTime := gateTimes.value;
      }
    }

    /** connect_host: the host is listed last and given its table, the default one when none is supplied. */
    method ConnectHost(id: string, table: Option<Table>)
      modifies this
      ensures computingHostIds == old(computingHostIds) + [id]
      ensures gateTime == old(gateTime)[id := if table.Some? then table.value else DefaultOperationTime]
    {
      computingHostIds := computingHostIds + [id];
      gateTime := gateTime[id := if table.Some? then table.value else DefaultOperationTime];
    }

    /**
     * connect_hosts: each host is listed and registered in turn. A non-empty
     * table list shorter than the host list raises IndexError once the host
     * past its end has been listed but before it is registered.
     */
    method ConnectHosts(ids: seq<string>, tables: Option<seq<Option<Table>>>) returns (err: Option<Error>)
      modifies this
      ensures err.None? <==> RegisteredCount(ids, tables) == |ids|
      ensures err.Some? ==> err.value == IndexError
      ensures var k := RegisteredCount(ids, tables);
        computingHostIds == old(computingHostIds) + ids[..if err.None? then k else k + 1]
        && gateTime == Registered(old(gateTime), ids, tables, k)
    {
      var i := 0;
      while i < |ids|
        invariant i <= |ids| && i <= RegisteredCount(ids, tables)
        invariant computingHostIds == old(computingHostIds) + ids[..i]
        invariant gateTime == Registered(old(gateTime), ids, tables, i)
      {
        computingHostIds := computingHostIds + [ids[i]];
        assert ids[..i + 1] == ids[..i] + [ids[i]];
        var t := TableFor(tables, i);
        if t.Err? {
          return Some(t.error);
        }
        gateTime := gateTime[ids[i] := t.value];
        i := i + 1;
      }
      return None;
    }

    /** The loop over one layer: stamp each operation, then fold its duration into the maximum. */
    method ScheduleLayer(layer: seq<Operation>, sched: seq<ScheduledOp>, t: nat)
      returns (r: Result<(seq<ScheduledOp>, nat)>)
      ensures r.Err? ==> LayerTime(gateTime, layer) == Err(r.error)
      ensures r.Ok? ==> LayerTime(gateTime, layer) == Ok(r.value.1) && r.value.0 == sched + Stamp(layer, t)
    {
      var out := sched;
      var m: nat := 0;
      for j := 0 to |layer|
        invariant out == sched + Stamp(layer[..j], t)
        invariant LayerTimeFrom(gateTime, layer, j, m) == LayerTime(gateTime, layer)
      {
        out := out + [ScheduledOp(layer[j], t)];
        assert Stamp(layer[..j + 1], t) == Stamp(layer[..j], t) + [ScheduledOp(layer[j], t)];
        if layer[j].hosts == [] {
          return Err(IndexError);
        }
        var d := ExecutionTime(gateTime, layer[j].hosts[0], layer[j].name, layer[j].gate);
        if d.Err? {
          return Err(d.error);
        }
        m := if d.value > m then d.value else m;
      }
      assert layer[..|layer|] == layer;
      return Ok((out, m));
    }

    /** The entries of the intermediate schedule that run on host h. */
    static method EntriesOn(sched: seq<ScheduledOp>, h: string) returns (r: seq<ScheduledOp>)
      ensures r == OpsOn(sched, h)
    {
      r := [];
      for k := 0 to |sched|
        invariant r == OpsOn(sched[..k], h)
      {
        assert sched[..k + 1][..k] == sched[..k];
        if sched[k].op.hosts != [] && sched[k].op.hosts[0] == h {
          r := r + [sched[k]];
        }
      }
      assert sched[..|sched|] == sched;
    }

    /** _create_distributed_schedules. */
    method CreateDistributedSchedules(layers: seq<seq<Operation>>)
      returns (r: Result<(map<string, seq<ScheduledOp>>, nat)>)
      ensures r == Schedules(gateTime, computingHostIds, layers)
    {
      var timeLayerEnd: nat := 0;
      var schedule: seq<ScheduledOp> := [];
      for i := 0 to |layers|
        invariant TimelineFrom(gateTime, layers, i, schedule, timeLayerEnd) == Timeline(gateTime, layers)
      {
        var step := ScheduleLayer(layers[i], schedule, timeLayerEnd);
        if step.Err? {
          return Err(step.error);
        }
        schedule, timeLayerEnd := step.value.0, timeLayerEnd + step.value.1;
      }
      var schedules: map<string, seq<ScheduledOp>> := map[];
      for k := 0 to |computingHostIds|
        invariant schedules == Split(schedule, computingHostIds[..k])
      {
        var h := computingHostIds[k];
        assert computingHostIds[..k + 1] == computingHostIds[..k] + [h];
        var entries := EntriesOn(schedule, h);
        schedules := schedules[h := entries];
      }
      assert computingHostIds[..|computingHostIds|] == computingHostIds;
      return Ok((schedules, timeLayerEnd));
    }
  }
}
