/**
 * The specification of Circuit.control_gate_info (interlinq/objects/circuit.py):
 * a backward scan over the layers that groups cross-node controlled gates
 * with the same ordered host pair and control qubit across consecutive
 * layers into one run, kept at the earliest layer of the run.
 *
 * The scan walks the layers last to first. An operation looks for matching
 * entries in the list of the layer just after it, deleting each match while
 * enumerating that same list, exactly as Python's enumerate over a list
 * that shrinks underneath it: the element after a deleted one is skipped.
 */
module ControlGates {
  import opened Wrappers
  import opened Seqs
  import opened Operations
  import Constants

  /** One entry of the result: where the run starts and the run's operations, latest first. */
  datatype GateInfo = GateInfo(opIndex: nat, hosts: seq<string>, controlQubit: string, operations: seq<Operation>)

  /** The key an entry is merged on: ordered host pair and control qubit (not gate, not target). */
  predicate SameRun(e: GateInfo, hosts: seq<string>, ctrl: string) {
    e.hosts == hosts && e.controlQubit == ctrl
  }

  /**
   * The inner enumerate-and-delete loop, from position i of the live list:
   * returns the list left behind and the operations of the last entry taken.
   */
  function ScanFrom(live: seq<GateInfo>, i: nat, hosts: seq<string>, ctrl: string, taken: seq<Operation>)
    : (seq<GateInfo>, seq<Operation>)
    decreases |live| - i
  {
    if i >= |live| then (live, taken)
    else if SameRun(live[i], hosts, ctrl) then
      ScanFrom(live[..i] + live[i + 1..], i + 1, hosts, ctrl, live[i].operations)
    else
      ScanFrom(live, i + 1, hosts, ctrl, taken)
  }

  /**
   * Processes operations j.. of one layer. `later` is the entry list of the
   * next layer in circuit order (absent for the last layer); `cur` holds the
   * entries produced so far for this layer.
   */
  function LayerFrom(ops: seq<Operation>, j: nat, last: bool, later: seq<GateInfo>, cur: seq<GateInfo>)
    : Result<(seq<GateInfo>, seq<GateInfo>)>
    decreases |ops| - j
  {
    if j >= |ops| then Ok((later, cur))
    else if !IsControlGateOverTwoHosts(ops[j]) then LayerFrom(ops, j + 1, last, later, cur)
    else match ControlQubit(ops[j])
      case Err(e) => Err(e)
      case Ok(c) =>
        var (rest, taken) := if last then (later, []) else ScanFrom(later, 0, ops[j].hosts, c, []);
        LayerFrom(ops, j + 1, last, rest, cur + [GateInfo(j, ops[j].hosts, c, taken + [ops[j]])])
  }

  /**
   * The accumulated result after processing the reversed layers rev[0..]
   * in order; position k of the result belongs to rev[k].
   */
  function InfoRev(rev: seq<seq<Operation>>): (r: Result<seq<seq<GateInfo>>>)
    ensures r.Ok? ==> |r.value| == |rev|
  {
    if rev == [] then Ok([])
    else
      var k := |rev| - 1;
      match InfoRev(rev[..k])
      case Err(e) => Err(e)
      case Ok(acc) =>
        match LayerFrom(rev[k], 0, k == 0, if k == 0 then [] else acc[k - 1], [])
        case Err(e) => Err(e)
        case Ok((rest, cur)) => Ok((if k == 0 then acc else acc[..k - 1] + [rest]) + [cur])
  }

  /** Layer-wise control-gate information, aligned with the layers of the circuit. */
  function ControlGateInfo(layers: seq<seq<Operation>>): Result<seq<seq<GateInfo>>> {
    match InfoRev(Reverse(layers))
    case Err(e) => Err(e)
    case Ok(acc) => Ok(Reverse(acc))
  }

  // ---------------------------------------------------------------------------
  // The inner scan.

  /** The scan only removes entries, and what it takes is the run of a matching entry. */
  lemma {:induction false} ScanFromTakes(live: seq<GateInfo>, i: nat, hosts: seq<string>, ctrl: string,
                                         taken: seq<Operation>)
    ensures var (rest, t) := ScanFrom(live, i, hosts, ctrl, taken);
      (forall e :: e in rest ==> e in live)
      && (t == taken || exists e :: e in live && SameRun(e, hosts, ctrl) && t == e.operations)
    decreases |live| - i
  {
    if i < |live| {
      if SameRun(live[i], hosts, ctrl) {
        ScanFromTakes(live[..i] + live[i + 1..], i + 1, hosts, ctrl, live[i].operations);
      } else {
        ScanFromTakes(live, i + 1, hosts, ctrl, taken);
      }
    }
  }

  /** With no matching entry the scan changes nothing and takes nothing. */
  lemma {:induction false} ScanNoMatch(live: seq<GateInfo>, i: nat, hosts: seq<string>, ctrl: string,
                                       taken: seq<Operation>)
    requires forall m :: i <= m < |live| ==> !SameRun(live[m], hosts, ctrl)
    ensures ScanFrom(live, i, hosts, ctrl, taken) == (live, taken)
    decreases |live| - i
  {
    if i < |live| {
      ScanNoMatch(live, i + 1, hosts, ctrl, taken);
    }
  }

  /**
   * With exactly one matching entry, at position m, the scan removes that
   * entry (the others keep their order) and takes its run.
   */
  lemma {:induction false} ScanUniqueMatch(live: seq<GateInfo>, m: nat, hosts: seq<string>, ctrl: string)
    requires m < |live| && SameRun(live[m], hosts, ctrl)
    requires forall x :: 0 <= x < |live| && x != m ==> !SameRun(live[x], hosts, ctrl)
    ensures ScanFrom(live, 0, hosts, ctrl, []) == (live[..m] + live[m + 1..], live[m].operations)
  {
    ScanSkips(live, 0, m, hosts, ctrl, []);
    var rest := live[..m] + live[m + 1..];
    ScanNoMatch(rest, m + 1, hosts, ctrl, live[m].operations);
  }

  /** Positions before the first match are stepped over. */
  lemma {:induction false} ScanSkips(live: seq<GateInfo>, i: nat, m: nat, hosts: seq<string>, ctrl: string,
                                     taken: seq<Operation>)
    requires i <= m < |live|
    requires forall x :: i <= x < m ==> !SameRun(live[x], hosts, ctrl)
    ensures ScanFrom(live, i, hosts, ctrl, taken) == ScanFrom(live, m, hosts, ctrl, taken)
    decreases m - i
  {
    if i < m {
      ScanSkips(live, i + 1, m, hosts, ctrl, taken);
    }
  }

  // ---------------------------------------------------------------------------
  // Where the runs come from.

  /**
   * Entry e at reversed position k: its operations are cross-node gates on
   * e's host pair and control qubit, the j-th taken from reversed layer
   * k - n + 1 + j (so the list runs latest layer first), and the last one is
   * the operation at e.opIndex of reversed layer k.
   */
  ghost predicate EntryFrom(e: GateInfo, rev: seq<seq<Operation>>, k: nat) {
    var n := |e.operations|;
    k < |rev| && 1 <= n <= k + 1
    && e.opIndex < |rev[k]| && e.operations[n - 1] == rev[k][e.opIndex]
    && |e.hosts| == 2
    && forall j :: 0 <= j < n ==>
         e.operations[j] in rev[k - n + 1 + j] && IsControlGateOverTwoHosts(e.operations[j])
         && e.operations[j].hosts == e.hosts && ControlQubit(e.operations[j]) == Ok(e.controlQubit)
  }

  lemma {:induction false} EntryFromPrefix(e: GateInfo, rev: seq<seq<Operation>>, k: nat, m: nat)
    requires k < m <= |rev| && EntryFrom(e, rev[..m], k)
    ensures EntryFrom(e, rev, k)
  {
    var n := |e.operations|;
    forall j | 0 <= j < n ensures e.operations[j] in rev[k - n + 1 + j] {
      assert rev[..m][k - n + 1 + j] == rev[k - n + 1 + j];
    }
  }

  /** A cross-node gate with no run to extend opens a run of its own. */
  lemma StartRun(rev: seq<seq<Operation>>, k: nat, j: nat, c: string)
    requires k < |rev| && j < |rev[k]|
    requires IsControlGateOverTwoHosts(rev[k][j]) && ControlQubit(rev[k][j]) == Ok(c)
    ensures EntryFrom(GateInfo(j, rev[k][j].hosts, c, [] + [rev[k][j]]), rev, k)
  {
    assert [] + [rev[k][j]] == [rev[k][j]];
  }

  /** A cross-node gate extends the matching run of the next layer by one layer. */
  lemma ExtendRun(rev: seq<seq<Operation>>, k: nat, j: nat, c: string, src: GateInfo)
    requires 0 < k < |rev| && j < |rev[k]|
    requires IsControlGateOverTwoHosts(rev[k][j]) && ControlQubit(rev[k][j]) == Ok(c)
    requires EntryFrom(src, rev, k - 1) && SameRun(src, rev[k][j].hosts, c)
    ensures EntryFrom(GateInfo(j, rev[k][j].hosts, c, src.operations + [rev[k][j]]), rev, k)
  {
    var op := rev[k][j];
    var ops := src.operations + [op];
    var n := |ops|;
    forall x | 0 <= x < n
      ensures ops[x] in rev[k - n + 1 + x] && IsControlGateOverTwoHosts(ops[x])
        && ops[x].hosts == src.hosts && ControlQubit(ops[x]) == Ok(c)
    {
      if x < n - 1 {
        assert ops[x] == src.operations[x];
      }
    }
  }

  /** The entry a cross-node gate opens, extending the run it took from the next layer, if any. */
  lemma NewEntryValid(rev: seq<seq<Operation>>, k: nat, j: nat, c: string, later: seq<GateInfo>, taken: seq<Operation>)
    requires k < |rev| && j < |rev[k]|
    requires IsControlGateOverTwoHosts(rev[k][j]) && ControlQubit(rev[k][j]) == Ok(c)
    requires k > 0 ==> forall e :: e in later ==> EntryFrom(e, rev, k - 1)
    requires taken == if k == 0 then [] else ScanFrom(later, 0, rev[k][j].hosts, c, []).1
    ensures EntryFrom(GateInfo(j, rev[k][j].hosts, c, taken + [rev[k][j]]), rev, k)
  {
    if k > 0 {
      ScanFromTakes(later, 0, rev[k][j].hosts, c, []);
    }
    if taken == [] {
      StartRun(rev, k, j, c);
    } else {
      var src :| src in later && SameRun(src, rev[k][j].hosts, c) && taken == src.operations;
      ExtendRun(rev, k, j, c, src);
    }
  }

  lemma {:induction false} LayerFromValid(rev: seq<seq<Operation>>, k: nat, j: nat,
                                          later: seq<GateInfo>, cur: seq<GateInfo>)
    requires k < |rev|
    requires k > 0 ==> forall e :: e in later ==> EntryFrom(e, rev, k - 1)
    requires forall e :: e in cur ==> EntryFrom(e, rev, k)
    ensures var r := LayerFrom(rev[k], j, k == 0, later, cur);
      r.Ok? ==>
        (forall e :: e in r.value.0 ==> e in later)
        && (forall e :: e in r.value.1 ==> EntryFrom(e, rev, k))
    decreases |rev[k]| - j
  {
    var ops := rev[k];
    if j < |ops| && IsControlGateOverTwoHosts(ops[j]) && ControlQubit(ops[j]).Ok? {
      var c := ControlQubit(ops[j]).value;
      var (rest, taken) := if k == 0 then (later, []) else ScanFrom(later, 0, ops[j].hosts, c, []);
      var ne := GateInfo(j, ops[j].hosts, c, taken + [ops[j]]);
      NewEntryValid(rev, k, j, c, later, taken);
      if k > 0 {
        ScanFromTakes(later, 0, ops[j].hosts, c, []);
      }
      LayerFromValid(rev, k, j + 1, rest, cur + [ne]);
    } else if j < |ops| && !IsControlGateOverTwoHosts(ops[j]) {
      LayerFromValid(rev, k, j + 1, later, cur);
    }
  }

  lemma {:induction false} InfoRevValid(rev: seq<seq<Operation>>)
    ensures InfoRev(rev).Ok? ==>
      forall q, e :: 0 <= q < |rev| && e in InfoRev(rev).value[q] ==> EntryFrom(e, rev, q)
    decreases |rev|
  {
    if rev != [] && InfoRev(rev).Ok? {
      var k := |rev| - 1;
      var pre := rev[..k];
      InfoRevValid(pre);
      var acc := InfoRev(pre).value;
      forall q, e | 0 <= q < k && e in acc[q] ensures EntryFrom(e, rev, q) {
        EntryFromPrefix(e, rev, q, k);
      }
      assert rev[k] == rev[|rev| - 1];
      LayerFromValid(rev, k, 0, if k == 0 then [] else acc[k - 1], []);
    }
  }

  /**
   * Entry e in the result at layer i: a run of n cross-node gates on e's host
   * pair and control qubit; its j-th operation belongs to layer i + n - 1 - j,
   * so the runs are stored latest layer first; its last operation is the
   * operation at e.opIndex of layer i.
   */
  ghost predicate RunAt(e: GateInfo, layers: seq<seq<Operation>>, i: nat) {
    var n := |e.operations|;
    1 <= n && i + n <= |layers|
    && e.opIndex < |layers[i]| && e.operations[n - 1] == layers[i][e.opIndex]
    && |e.hosts| == 2
    && forall j :: 0 <= j < n ==>
         e.operations[j] in layers[i + n - 1 - j] && IsControlGateOverTwoHosts(e.operations[j])
         && e.operations[j].hosts == e.hosts && ControlQubit(e.operations[j]) == Ok(e.controlQubit)
  }

  /**
   * The result has one list per layer, and every entry is a run of
   * cross-node gates that share the ordered host pair and control qubit,
   * stored latest first, starting at the entry's own layer.
   */
  lemma {:induction false} ControlGateInfoRuns(layers: seq<seq<Operation>>)
    ensures var r := ControlGateInfo(layers);
      r.Ok? ==>
        |r.value| == |layers|
        && forall i, e :: 0 <= i < |layers| && e in r.value[i] ==> RunAt(e, layers, i)
  {
    var rev := Reverse(layers);
    InfoRevValid(rev);
    if InfoRev(rev).Ok? {
      var acc := InfoRev(rev).value;
      var r := Reverse(acc);
      var N := |layers|;
      forall i, e | 0 <= i < N && e in r[i] ensures RunAt(e, layers, i) {
        var k := N - 1 - i;
        assert r[i] == acc[k];
        assert EntryFrom(e, rev, k);
        var n := |e.operations|;
        forall j | 0 <= j < n ensures e.operations[j] in layers[i + n - 1 - j] {
          assert rev[k - n + 1 + j] == layers[i + n - 1 - j];
        }
        assert rev[k] == layers[i];
      }
    }
  }

  /** Read in reverse, a run lists its gates in circuit order, one per consecutive layer. */
  lemma {:induction false} RunChronological(e: GateInfo, layers: seq<seq<Operation>>, i: nat)
    requires RunAt(e, layers, i)
    ensures forall j :: 0 <= j < |e.operations| ==> Reverse(e.operations)[j] in layers[i + j]
  {
    var n := |e.operations|;
    forall j | 0 <= j < n ensures Reverse(e.operations)[j] in layers[i + j] {
      assert Reverse(e.operations)[j] == e.operations[n - 1 - j];
    }
  }

  // ---------------------------------------------------------------------------
  // When the scan succeeds.

  /** Every cross-node gate names a control qubit (its qubit list is present and non-empty). */
  ghost predicate ControlQubitsReadable(layers: seq<seq<Operation>>) {
    forall i, j :: 0 <= i < |layers| && 0 <= j < |layers[i]| && IsControlGateOverTwoHosts(layers[i][j]) ==>
      ControlQubit(layers[i][j]).Ok?
  }

  lemma {:induction false} LayerFromOk(ops: seq<Operation>, j: nat, last: bool, later: seq<GateInfo>,
                                       cur: seq<GateInfo>)
    ensures LayerFrom(ops, j, last, later, cur).Ok? <==>
      forall x :: j <= x < |ops| && IsControlGateOverTwoHosts(ops[x]) ==> ControlQubit(ops[x]).Ok?
    decreases |ops| - j
  {
    if j < |ops| {
      if !IsControlGateOverTwoHosts(ops[j]) {
        LayerFromOk(ops, j + 1, last, later, cur);
      } else if ControlQubit(ops[j]).Ok? {
        var c := ControlQubit(ops[j]).value;
        var (rest, taken) := if last then (later, []) else ScanFrom(later, 0, ops[j].hosts, c, []);
        LayerFromOk(ops, j + 1, last, rest, cur + [GateInfo(j, ops[j].hosts, c, taken + [ops[j]])]);
      }
    }
  }

  lemma {:induction false} InfoRevOk(rev: seq<seq<Operation>>)
    ensures InfoRev(rev).Ok? <==> ControlQubitsReadable(rev)
    decreases |rev|
  {
    if rev != [] {
      var k := |rev| - 1;
      var pre := rev[..k];
      InfoRevOk(pre);
      assert ControlQubitsReadable(rev) <==>
        ControlQubitsReadable(pre)
        && forall x :: 0 <= x < |rev[k]| && IsControlGateOverTwoHosts(rev[k][x]) ==> ControlQubit(rev[k][x]).Ok?
      by {
        assert forall i :: 0 <= i < k ==> pre[i] == rev[i];
      }
      if InfoRev(pre).Ok? {
        var acc := InfoRev(pre).value;
        LayerFromOk(rev[k], 0, k == 0, if k == 0 then [] else acc[k - 1], []);
      }
    }
  }

  /** The scan fails exactly when some cross-node gate has no readable control qubit. */
  lemma {:induction false} ControlGateInfoOk(layers: seq<seq<Operation>>)
    ensures ControlGateInfo(layers).Ok? <==> ControlQubitsReadable(layers)
  {
    var rev := Reverse(layers);
    InfoRevOk(rev);
    assert ControlQubitsReadable(rev) <==> ControlQubitsReadable(layers) by {
      forall i | 0 <= i < |layers| ensures rev[|layers| - 1 - i] == layers[i] {
      }
      forall i | 0 <= i < |rev| ensures rev[i] == layers[|layers| - 1 - i] {
      }
    }
  }

  // ---------------------------------------------------------------------------
  // Coverage. When no layer holds two cross-node gates on the same ordered
  // host pair and control qubit, the scan equals a reference that opens one
  // entry per gate and keeps it only where the previous layer does not
  // continue its key; so every cross-node gate lies in exactly one run.

  /** Operation op is a cross-node gate on host pair h with control qubit c. */
  predicate OnKey(op: Operation, h: seq<string>, c: string) {
    IsControlGateOverTwoHosts(op) && op.hosts == h && ControlQubit(op) == Ok(c)
  }

  /** The index of the first gate of ops on (h, c), or |ops| when there is none. */
  function FindKey(ops: seq<Operation>, h: seq<string>, c: string): (x: nat)
    ensures x <= |ops| && (x < |ops| ==> OnKey(ops[x], h, c))
    ensures forall y :: 0 <= y < x ==> !OnKey(ops[y], h, c)
  {
    if ops == [] then 0
    else if OnKey(ops[0], h, c) then 0
    else
      var x := FindKey(ops[1..], h, c);
      assert forall y :: 0 < y < 1 + x ==> ops[y] == ops[1..][y - 1];
      1 + x
  }

  predicate HasKey(ops: seq<Operation>, h: seq<string>, c: string) {
    FindKey(ops, h, c) < |ops|
  }

  /** No two cross-node gates of a layer share the ordered host pair and a readable control qubit. */
  predicate KeysUnique(ops: seq<Operation>) {
    forall x, y ::
      (0 <= x < y < |ops| && IsControlGateOverTwoHosts(ops[x]) && IsControlGateOverTwoHosts(ops[y])
       && ops[x].hosts == ops[y].hosts && ControlQubit(ops[x]).Ok?)
      ==> ControlQubit(ops[x]) != ControlQubit(ops[y])
  }

  /** Every cross-node gate of the layer names a control qubit. */
  predicate LayerReadable(ops: seq<Operation>) {
    forall x :: 0 <= x < |ops| && IsControlGateOverTwoHosts(ops[x]) ==> ControlQubit(ops[x]).Ok?
  }

  predicate AllKeysUnique(layers: seq<seq<Operation>>) {
    forall i :: 0 <= i < |layers| ==> KeysUnique(layers[i])
  }

  /** No two entries of a list share the ordered host pair and the control qubit. */
  predicate KeysDistinct(entries: seq<GateInfo>) {
    forall a, b :: 0 <= a < b < |entries| ==> !SameRun(entries[b], entries[a].hosts, entries[a].controlQubit)
  }

  /**
   * The run through the gate on (h, c) at reversed layer k, latest layer
   * first: it reaches back over the preceding reversed layers (the following
   * layers of the circuit) for as long as each holds a gate on (h, c).
   */
  ghost function RunThrough(rev: seq<seq<Operation>>, k: nat, h: seq<string>, c: string): seq<Operation>
    requires k < |rev| && HasKey(rev[k], h, c)
    decreases k
  {
    (if k > 0 && HasKey(rev[k - 1], h, c) then RunThrough(rev, k - 1, h, c) else [])
    + [rev[k][FindKey(rev[k], h, c)]]
  }

  /** The entries the cross-node gates j.. of reversed layer k open, each carrying its whole run. */
  ghost function Opened(rev: seq<seq<Operation>>, k: nat, j: nat): seq<GateInfo>
    requires k < |rev|
    decreases |rev[k]| - j
  {
    if j >= |rev[k]| then []
    else if IsControlGateOverTwoHosts(rev[k][j]) && ControlQubit(rev[k][j]).Ok? then
      var op := rev[k][j];
      var c := ControlQubit(op).value;
      [GateInfo(j, op.hosts, c, RunThrough(rev, k, op.hosts, c))] + Opened(rev, k, j + 1)
    else Opened(rev, k, j + 1)
  }

  /** The entries whose key has no gate in ops, in order. */
  function Unmatched(entries: seq<GateInfo>, ops: seq<Operation>): seq<GateInfo> {
    if entries == [] then []
    else (if HasKey(ops, entries[0].hosts, entries[0].controlQubit) then [] else [entries[0]])
         + Unmatched(entries[1..], ops)
  }

  /**
   * Reference for the reversed scan: reversed layer q keeps the entries its
   * gates open, less those whose key reversed layer q + 1 (the previous
   * layer of the circuit) continues.
   */
  ghost function MergedRev(rev: seq<seq<Operation>>): (m: seq<seq<GateInfo>>)
    ensures |m| == |rev|
  {
    seq(|rev|, q requires 0 <= q < |rev| =>
      if q + 1 < |rev| then Unmatched(Opened(rev, q, 0), rev[q + 1]) else Opened(rev, q, 0))
  }

  lemma HasKeyAt(ops: seq<Operation>, x: nat, h: seq<string>, c: string)
    requires x < |ops| && OnKey(ops[x], h, c)
    ensures HasKey(ops, h, c) && FindKey(ops, h, c) <= x
  {
  }

  /** Under KeysUnique, the gate on a key is the only one, so FindKey finds it. */
  lemma FindKeyUnique(ops: seq<Operation>, x: nat)
    requires KeysUnique(ops) && x < |ops| && IsControlGateOverTwoHosts(ops[x]) && ControlQubit(ops[x]).Ok?
    ensures FindKey(ops, ops[x].hosts, ControlQubit(ops[x]).value) == x
  {
    var h, c := ops[x].hosts, ControlQubit(ops[x]).value;
    HasKeyAt(ops, x, h, c);
    KeyOnce(ops, FindKey(ops, h, c), x, h, c);
  }

  /** Under KeysUnique, two different gates of a layer are on different keys. */
  lemma KeysApart(ops: seq<Operation>, y: nat, x: nat, h: seq<string>, c: string, h2: seq<string>, c2: string)
    requires KeysUnique(ops) && y < x < |ops| && OnKey(ops[y], h, c) && OnKey(ops[x], h2, c2)
    ensures h != h2 || c != c2
  {
  }

  /** Under KeysUnique, two gates of a layer on the same key are the same gate. */
  lemma KeyOnce(ops: seq<Operation>, y: nat, x: nat, h: seq<string>, c: string)
    requires KeysUnique(ops) && y < |ops| && x < |ops| && OnKey(ops[y], h, c) && OnKey(ops[x], h, c)
    ensures y == x
  {
  }

  lemma {:induction false} HasKeyStep(ops: seq<Operation>, j: nat, h: seq<string>, c: string)
    requires j < |ops|
    ensures HasKey(ops[j..], h, c) <==> OnKey(ops[j], h, c) || HasKey(ops[j + 1..], h, c)
  {
    assert ops[j..][0] == ops[j];
    assert ops[j..][1..] == ops[j + 1..];
  }

  lemma {:induction false} UnmatchedMembers(entries: seq<GateInfo>, ops: seq<Operation>)
    ensures forall e :: e in Unmatched(entries, ops) <==> e in entries && !HasKey(ops, e.hosts, e.controlQubit)
    decreases |entries|
  {
    if entries != [] {
      UnmatchedMembers(entries[1..], ops);
      assert forall e :: e in entries <==> e == entries[0] || e in entries[1..];
    }
  }

  lemma {:induction false} UnmatchedConcat(a: seq<GateInfo>, b: seq<GateInfo>, ops: seq<Operation>)
    ensures Unmatched(a + b, ops) == Unmatched(a, ops) + Unmatched(b, ops)
    decreases |a|
  {
    if a == [] {
      assert a + b == b;
    } else {
      var head := if HasKey(ops, a[0].hosts, a[0].controlQubit) then [] else [a[0]];
      assert (a + b)[0] == a[0] && (a + b)[1..] == a[1..] + b;
      assert Unmatched(a + b, ops) == head + Unmatched(a[1..] + b, ops);
      UnmatchedConcat(a[1..], b, ops);
      assert Unmatched(a, ops) == head + Unmatched(a[1..], ops);
    }
  }

  lemma {:induction false} UnmatchedSame(entries: seq<GateInfo>, ops1: seq<Operation>, ops2: seq<Operation>)
    requires forall p :: 0 <= p < |entries| ==>
      (HasKey(ops1, entries[p].hosts, entries[p].controlQubit) <==> HasKey(ops2, entries[p].hosts, entries[p].controlQubit))
    ensures Unmatched(entries, ops1) == Unmatched(entries, ops2)
    decreases |entries|
  {
    if entries != [] {
      assert forall p :: 0 <= p < |entries| - 1 ==> entries[1..][p] == entries[p + 1];
      UnmatchedSame(entries[1..], ops1, ops2);
    }
  }

  lemma {:induction false} UnmatchedNone(entries: seq<GateInfo>, ops: seq<Operation>)
    requires forall e :: e in entries ==> !HasKey(ops, e.hosts, e.controlQubit)
    ensures Unmatched(entries, ops) == entries
    decreases |entries|
  {
    if entries != [] {
      UnmatchedNone(entries[1..], ops);
    }
  }

  lemma {:induction false} RunThroughPrefix(rev: seq<seq<Operation>>, m: nat, k: nat, h: seq<string>, c: string)
    requires k < m <= |rev| && HasKey(rev[k], h, c)
    ensures RunThrough(rev[..m], k, h, c) == RunThrough(rev, k, h, c)
    decreases k
  {
    assert rev[..m][k] == rev[k];
    if k > 0 {
      assert rev[..m][k - 1] == rev[k - 1];
      if HasKey(rev[k - 1], h, c) {
        RunThroughPrefix(rev, m, k - 1, h, c);
      }
    }
  }

  lemma {:induction false} OpenedPrefix(rev: seq<seq<Operation>>, m: nat, k: nat, j: nat)
    requires k < m <= |rev|
    ensures Opened(rev[..m], k, j) == Opened(rev, k, j)
    decreases |rev[k]| - j
  {
    assert rev[..m][k] == rev[k];
    if j < |rev[k]| {
      OpenedPrefix(rev, m, k, j + 1);
      var op := rev[k][j];
      if IsControlGateOverTwoHosts(op) && ControlQubit(op).Ok? {
        HasKeyAt(rev[k], j, op.hosts, ControlQubit(op).value);
        RunThroughPrefix(rev, m, k, op.hosts, ControlQubit(op).value);
      }
    }
  }

  /** Each opened entry belongs to a gate at or after j, keyed and indexed by it, and carries that key's run. */
  lemma {:induction false} OpenedEntries(rev: seq<seq<Operation>>, k: nat, j: nat)
    requires k < |rev|
    ensures forall e :: e in Opened(rev, k, j) ==>
      j <= e.opIndex < |rev[k]| && OnKey(rev[k][e.opIndex], e.hosts, e.controlQubit)
      && HasKey(rev[k], e.hosts, e.controlQubit) && e.operations == RunThrough(rev, k, e.hosts, e.controlQubit)
    decreases |rev[k]| - j
  {
    if j < |rev[k]| {
      OpenedEntries(rev, k, j + 1);
      var op := rev[k][j];
      if IsControlGateOverTwoHosts(op) && ControlQubit(op).Ok? {
        HasKeyAt(rev[k], j, op.hosts, ControlQubit(op).value);
        var head := GateInfo(j, op.hosts, ControlQubit(op).value, RunThrough(rev, k, op.hosts, ControlQubit(op).value));
        assert Opened(rev, k, j) == [head] + Opened(rev, k, j + 1);
      }
    }
  }

  /** Every readable cross-node gate at or after j opens an entry. */
  lemma {:induction false} OpenedComplete(rev: seq<seq<Operation>>, k: nat, j: nat, x: nat)
    requires k < |rev| && j <= x < |rev[k]|
    requires IsControlGateOverTwoHosts(rev[k][x]) && ControlQubit(rev[k][x]).Ok?
    ensures HasKey(rev[k], rev[k][x].hosts, ControlQubit(rev[k][x]).value)
    ensures GateInfo(x, rev[k][x].hosts, ControlQubit(rev[k][x]).value,
                     RunThrough(rev, k, rev[k][x].hosts, ControlQubit(rev[k][x]).value)) in Opened(rev, k, j)
    decreases x - j
  {
    HasKeyAt(rev[k], x, rev[k][x].hosts, ControlQubit(rev[k][x]).value);
    if j < x {
      OpenedComplete(rev, k, j + 1, x);
    }
  }

  /** Under KeysUnique the opened entries have pairwise distinct keys. */
  lemma {:induction false} OpenedDistinct(rev: seq<seq<Operation>>, k: nat, j: nat)
    requires k < |rev| && KeysUnique(rev[k])
    ensures KeysDistinct(Opened(rev, k, j))
    decreases |rev[k]| - j
  {
    if j < |rev[k]| {
      OpenedDistinct(rev, k, j + 1);
      var op := rev[k][j];
      if IsControlGateOverTwoHosts(op) && ControlQubit(op).Ok? {
        var tail := Opened(rev, k, j + 1);
        var c := ControlQubit(op).value;
        var head := GateInfo(j, op.hosts, c, RunThrough(rev, k, op.hosts, c));
        assert Opened(rev, k, j) == [head] + tail;
        OpenedEntries(rev, k, j + 1);
        forall b | 0 <= b < |tail| ensures !SameRun(tail[b], op.hosts, c) {
          var x := tail[b].opIndex;
          assert tail[b] in tail;
          KeysApart(rev[k], j, x, op.hosts, c, tail[b].hosts, tail[b].controlQubit);
        }
        ConsDistinct(head, tail);
      }
    }
  }

  /** An entry on a key no entry of the list uses can go in front without breaking distinctness. */
  lemma ConsDistinct(head: GateInfo, tail: seq<GateInfo>)
    requires KeysDistinct(tail)
    requires forall b :: 0 <= b < |tail| ==> !SameRun(tail[b], head.hosts, head.controlQubit)
    ensures KeysDistinct([head] + tail)
  {
    var l := [head] + tail;
    forall a, b | 0 <= a < b < |l| ensures !SameRun(l[b], l[a].hosts, l[a].controlQubit) {
      assert l[b] == tail[b - 1];
      if a > 0 {
        assert l[a] == tail[a - 1];
      }
    }
  }

  /** The later list holds an entry on (h, c) exactly when reversed layer k - 1 has a gate on it, carrying that key's run. */
  ghost predicate Continues(rev: seq<seq<Operation>>, k: nat, later: seq<GateInfo>, h: seq<string>, c: string)
    requires 0 < k < |rev|
  {
    (HasKey(rev[k - 1], h, c) <==> exists e :: e in later && SameRun(e, h, c))
    && forall e :: e in later && SameRun(e, h, c) ==>
         HasKey(rev[k - 1], h, c) && e.operations == RunThrough(rev, k - 1, h, c)
  }

  /** Removing the one entry on a key keeps the keys distinct and every entry on another key. */
  lemma RemoveEntry(later: seq<GateInfo>, m: nat)
    requires m < |later| && KeysDistinct(later)
    ensures KeysDistinct(later[..m] + later[m + 1..])
    ensures forall e :: e in later && !SameRun(e, later[m].hosts, later[m].controlQubit) ==> e in later[..m] + later[m + 1..]
    ensures forall e :: e in later[..m] + later[m + 1..] ==> e in later && !SameRun(e, later[m].hosts, later[m].controlQubit)
  {
    RemoveEntryDistinct(later, m);
    RemoveEntryKeeps(later, m);
    RemoveEntryDrops(later, m);
  }

  lemma RemoveEntryDistinct(later: seq<GateInfo>, m: nat)
    requires m < |later| && KeysDistinct(later)
    ensures KeysDistinct(later[..m] + later[m + 1..])
  {
    var rest := later[..m] + later[m + 1..];
    forall a, b | 0 <= a < b < |rest| ensures !SameRun(rest[b], rest[a].hosts, rest[a].controlQubit) {
      var a' := if a < m then a else a + 1;
      var b' := if b < m then b else b + 1;
      assert rest[a] == later[a'] && rest[b] == later[b'];
    }
  }

  lemma RemoveEntryKeeps(later: seq<GateInfo>, m: nat)
    requires m < |later|
    ensures forall e :: e in later && !SameRun(e, later[m].hosts, later[m].controlQubit) ==> e in later[..m] + later[m + 1..]
  {
    var rest := later[..m] + later[m + 1..];
    forall e | e in later && !SameRun(e, later[m].hosts, later[m].controlQubit) ensures e in rest {
      var p :| 0 <= p < |later| && later[p] == e;
      if p < m {
        assert rest[p] == e;
      } else {
        assert p != m;
        assert rest[p - 1] == e;
      }
    }
  }

  lemma RemoveEntryDrops(later: seq<GateInfo>, m: nat)
    requires m < |later| && KeysDistinct(later)
    ensures forall e :: e in later[..m] + later[m + 1..] ==> e in later && !SameRun(e, later[m].hosts, later[m].controlQubit)
  {
    var rest := later[..m] + later[m + 1..];
    forall e | e in rest ensures e in later && !SameRun(e, later[m].hosts, later[m].controlQubit) {
      var p :| 0 <= p < |rest| && rest[p] == e;
      var p' := if p < m then p else p + 1;
      assert later[p'] == e;
    }
  }

  /** A gate on the key of entry e removes e from the unmatched entries and no other entry. */
  lemma UnmatchedDropOne(a: seq<GateInfo>, e: GateInfo, b: seq<GateInfo>, ops: seq<Operation>, j: nat)
    requires j < |ops| && OnKey(ops[j], e.hosts, e.controlQubit)
    requires forall p :: 0 <= p < |a| ==> !SameRun(a[p], e.hosts, e.controlQubit)
    requires forall p :: 0 <= p < |b| ==> !SameRun(b[p], e.hosts, e.controlQubit)
    ensures Unmatched(a + b, ops[j + 1..]) == Unmatched(a + [e] + b, ops[j..])
  {
    var T, T' := ops[j..], ops[j + 1..];
    var ua, ub := Unmatched(a, T'), Unmatched(b, T');
    assert Unmatched(a + [e] + b, T) == ua + ub by {
      UnmatchedConcat(a + [e], b, T);
      UnmatchedConcat(a, [e], T);
      assert Unmatched([e], T) == [] by {
        HasKeyStep(ops, j, e.hosts, e.controlQubit);
      }
      assert Unmatched(a, T) == ua by {
        forall p | 0 <= p < |a|
          ensures HasKey(T, a[p].hosts, a[p].controlQubit) <==> HasKey(T', a[p].hosts, a[p].controlQubit)
        {
          HasKeyStep(ops, j, a[p].hosts, a[p].controlQubit);
        }
        UnmatchedSame(a, T, T');
      }
      assert Unmatched(b, T) == ub by {
        forall p | 0 <= p < |b|
          ensures HasKey(T, b[p].hosts, b[p].controlQubit) <==> HasKey(T', b[p].hosts, b[p].controlQubit)
        {
          HasKeyStep(ops, j, b[p].hosts, b[p].controlQubit);
        }
        UnmatchedSame(b, T, T');
      }
      assert ua + [] == ua;
    }
    UnmatchedConcat(a, b, T');
  }

  /** A gate on a key no entry has leaves the unmatched entries as they are. */
  lemma UnmatchedSkipOne(later: seq<GateInfo>, ops: seq<Operation>, j: nat)
    requires j < |ops| && forall e :: e in later ==> !OnKey(ops[j], e.hosts, e.controlQubit)
    ensures Unmatched(later, ops[j + 1..]) == Unmatched(later, ops[j..])
  {
    forall e | e in later
      ensures HasKey(ops[j..], e.hosts, e.controlQubit) <==> HasKey(ops[j + 1..], e.hosts, e.controlQubit)
    {
      HasKeyStep(ops, j, e.hosts, e.controlQubit);
    }
    UnmatchedSame(later, ops[j..], ops[j + 1..]);
  }

  /**
   * What one gate of reversed layer k > 0 does to the later list: it takes
   * the run its key continues, if any, and removes exactly that entry.
   */
  ghost predicate StepTakes(rev: seq<seq<Operation>>, k: nat, j: nat, later: seq<GateInfo>)
    requires 0 < k < |rev| && j < |rev[k]| && ControlQubit(rev[k][j]).Ok?
  {
    var h, c := rev[k][j].hosts, ControlQubit(rev[k][j]).value;
    var (rest, taken) := ScanFrom(later, 0, h, c, []);
    HasKey(rev[k], h, c) && taken + [rev[k][j]] == RunThrough(rev, k, h, c)
    && KeysDistinct(rest)
    && (forall e :: e in later && !SameRun(e, h, c) ==> e in rest)
    && (forall e :: e in rest ==> e in later && !SameRun(e, h, c))
    && Unmatched(rest, rev[k][j + 1..]) == Unmatched(later, rev[k][j..])
  }

  lemma RunThroughAt(rev: seq<seq<Operation>>, k: nat, j: nat)
    requires 0 < k < |rev| && j < |rev[k]| && KeysUnique(rev[k])
    requires IsControlGateOverTwoHosts(rev[k][j]) && ControlQubit(rev[k][j]).Ok?
    ensures var h, c := rev[k][j].hosts, ControlQubit(rev[k][j]).value;
      HasKey(rev[k], h, c)
      && RunThrough(rev, k, h, c) == (if HasKey(rev[k - 1], h, c) then RunThrough(rev, k - 1, h, c) else []) + [rev[k][j]]
  {
    FindKeyUnique(rev[k], j);
  }

  /** The gate's key is continued by entry m of the later list. */
  lemma StepMatched(rev: seq<seq<Operation>>, k: nat, j: nat, later: seq<GateInfo>, m: nat)
    requires 0 < k < |rev| && j < |rev[k]| && KeysUnique(rev[k]) && KeysDistinct(later)
    requires IsControlGateOverTwoHosts(rev[k][j]) && ControlQubit(rev[k][j]).Ok?
    requires Continues(rev, k, later, rev[k][j].hosts, ControlQubit(rev[k][j]).value)
    requires m < |later| && SameRun(later[m], rev[k][j].hosts, ControlQubit(rev[k][j]).value)
    ensures StepTakes(rev, k, j, later)
  {
    var ops := rev[k];
    var h, c := ops[j].hosts, ControlQubit(ops[j]).value;
    RunThroughAt(rev, k, j);
    var a, b := later[..m], later[m + 1..];
    forall x | 0 <= x < |later| && x != m ensures !SameRun(later[x], h, c) {
      if x < m {
        assert !SameRun(later[m], later[x].hosts, later[x].controlQubit);
      }
    }
    ScanUniqueMatch(later, m, h, c);
    RemoveEntry(later, m);
    assert forall p :: 0 <= p < |a| ==> a[p] == later[p];
    assert forall p :: 0 <= p < |b| ==> b[p] == later[m + 1 + p];
    SplitAround(later, m);
    UnmatchedDropOne(a, later[m], b, ops, j);
  }

  /** No entry of the later list continues the gate's key. */
  lemma StepUnmatched(rev: seq<seq<Operation>>, k: nat, j: nat, later: seq<GateInfo>)
    requires 0 < k < |rev| && j < |rev[k]| && KeysUnique(rev[k]) && KeysDistinct(later)
    requires IsControlGateOverTwoHosts(rev[k][j]) && ControlQubit(rev[k][j]).Ok?
    requires Continues(rev, k, later, rev[k][j].hosts, ControlQubit(rev[k][j]).value)
    requires forall e :: e in later ==> !SameRun(e, rev[k][j].hosts, ControlQubit(rev[k][j]).value)
    ensures StepTakes(rev, k, j, later)
  {
    var h, c := rev[k][j].hosts, ControlQubit(rev[k][j]).value;
    RunThroughAt(rev, k, j);
    ScanNoMatch(later, 0, h, c, []);
    UnmatchedSkipOne(later, rev[k], j);
  }

  /** One gate of reversed layer k > 0 takes the run its key continues, if any, and removes that entry. */
  lemma LayerFromStep(rev: seq<seq<Operation>>, k: nat, j: nat, later: seq<GateInfo>)
    requires 0 < k < |rev| && j < |rev[k]| && KeysUnique(rev[k]) && KeysDistinct(later)
    requires IsControlGateOverTwoHosts(rev[k][j]) && ControlQubit(rev[k][j]).Ok?
    requires Continues(rev, k, later, rev[k][j].hosts, ControlQubit(rev[k][j]).value)
    ensures StepTakes(rev, k, j, later)
  {
    var h, c := rev[k][j].hosts, ControlQubit(rev[k][j]).value;
    if exists e :: e in later && SameRun(e, h, c) {
      var m :| 0 <= m < |later| && SameRun(later[m], h, c);
      StepMatched(rev, k, j, later, m);
    } else {
      StepUnmatched(rev, k, j, later);
    }
  }

  /** From gate j on, reversed layer k > 0 drops the continued entries of the later list and opens its own. */
  lemma {:induction false} LayerFromMerged(rev: seq<seq<Operation>>, k: nat, j: nat,
                                           later: seq<GateInfo>, cur: seq<GateInfo>)
    requires 0 < k < |rev| && j <= |rev[k]| && KeysUnique(rev[k]) && KeysDistinct(later)
    requires forall x :: j <= x < |rev[k]| && IsControlGateOverTwoHosts(rev[k][x]) ==> ControlQubit(rev[k][x]).Ok?
    requires forall x :: j <= x < |rev[k]| && IsControlGateOverTwoHosts(rev[k][x]) && ControlQubit(rev[k][x]).Ok? ==>
      Continues(rev, k, later, rev[k][x].hosts, ControlQubit(rev[k][x]).value)
    ensures LayerFrom(rev[k], j, false, later, cur) == Ok((Unmatched(later, rev[k][j..]), cur + Opened(rev, k, j)))
    decreases |rev[k]| - j
  {
    var ops := rev[k];
    if j == |ops| {
      assert ops[j..] == [];
      UnmatchedNone(later, ops[j..]);
      assert Opened(rev, k, j) == [];
      assert cur + [] == cur;
    } else if !IsControlGateOverTwoHosts(ops[j]) {
      LayerFromMerged(rev, k, j + 1, later, cur);
      forall e | e in later
        ensures HasKey(ops[j..], e.hosts, e.controlQubit) <==> HasKey(ops[j + 1..], e.hosts, e.controlQubit)
      {
        HasKeyStep(ops, j, e.hosts, e.controlQubit);
      }
      UnmatchedSame(later, ops[j..], ops[j + 1..]);
    } else {
      var h, c := ops[j].hosts, ControlQubit(ops[j]).value;
      LayerFromStep(rev, k, j, later);
      var (rest, taken) := ScanFrom(later, 0, h, c, []);
      var e := GateInfo(j, h, c, taken + [ops[j]]);
      forall x | j + 1 <= x < |ops| && IsControlGateOverTwoHosts(ops[x]) && ControlQubit(ops[x]).Ok?
        ensures Continues(rev, k, rest, ops[x].hosts, ControlQubit(ops[x]).value)
      {
        assert !(ops[x].hosts == h && ControlQubit(ops[x]).value == c) by {
          if ops[x].hosts == h {
            assert ControlQubit(ops[j]) != ControlQubit(ops[x]);
          }
        }
      }
      LayerFromMerged(rev, k, j + 1, rest, cur + [e]);
      assert cur + [e] + Opened(rev, k, j + 1) == cur + Opened(rev, k, j);
    }
  }

  /** The last layer of the circuit (reversed layer 0) opens one entry per cross-node gate and drops nothing. */
  lemma {:induction false} LayerFromFirst(rev: seq<seq<Operation>>, j: nat, cur: seq<GateInfo>)
    requires 0 < |rev| && j <= |rev[0]| && KeysUnique(rev[0])
    requires forall x :: j <= x < |rev[0]| && IsControlGateOverTwoHosts(rev[0][x]) ==> ControlQubit(rev[0][x]).Ok?
    ensures LayerFrom(rev[0], j, true, [], cur) == Ok(([], cur + Opened(rev, 0, j)))
    decreases |rev[0]| - j
  {
    if j == |rev[0]| {
      assert Opened(rev, 0, j) == [];
      assert cur + [] == cur;
    } else {
      var op := rev[0][j];
      if IsControlGateOverTwoHosts(op) {
        FindKeyUnique(rev[0], j);
        var e := GateInfo(j, op.hosts, ControlQubit(op).value, [] + [op]);
        LayerFromFirst(rev, j + 1, cur + [e]);
        assert cur + [e] + Opened(rev, 0, j + 1) == cur + Opened(rev, 0, j);
      } else {
        LayerFromFirst(rev, j + 1, cur);
      }
    }
  }

  /** The entries reversed layer k - 1 opens continue exactly the keys that layer holds. */
  lemma OpenedContinues(rev: seq<seq<Operation>>, k: nat)
    requires 0 < k < |rev| && KeysUnique(rev[k - 1])
    ensures KeysDistinct(Opened(rev, k - 1, 0))
    ensures forall x :: 0 <= x < |rev[k]| && IsControlGateOverTwoHosts(rev[k][x]) && ControlQubit(rev[k][x]).Ok? ==>
      Continues(rev, k, Opened(rev, k - 1, 0), rev[k][x].hosts, ControlQubit(rev[k][x]).value)
  {
    var later := Opened(rev, k - 1, 0);
    OpenedEntries(rev, k - 1, 0);
    OpenedDistinct(rev, k - 1, 0);
    forall x | 0 <= x < |rev[k]| && IsControlGateOverTwoHosts(rev[k][x]) && ControlQubit(rev[k][x]).Ok?
      ensures Continues(rev, k, later, rev[k][x].hosts, ControlQubit(rev[k][x]).value)
    {
      var h, c := rev[k][x].hosts, ControlQubit(rev[k][x]).value;
      if HasKey(rev[k - 1], h, c) {
        OpenedComplete(rev, k - 1, 0, FindKey(rev[k - 1], h, c));
      }
    }
  }

  /** The reference of a prefix agrees with the reference of the whole on every layer but the prefix's last. */
  lemma MergedRevPrefix(rev: seq<seq<Operation>>, k: nat, q: nat)
    requires q + 1 < k <= |rev|
    ensures MergedRev(rev[..k])[q] == MergedRev(rev)[q]
  {
    OpenedPrefix(rev, k, q, 0);
    assert rev[..k][q + 1] == rev[q + 1];
  }

  /** The last reversed layer drops the entries its gates continue and opens its own. */
  lemma LastLayerMerged(rev: seq<seq<Operation>>, k: nat, acc: seq<seq<GateInfo>>)
    requires 0 < k && k == |rev| - 1 && KeysUnique(rev[k - 1]) && KeysUnique(rev[k]) && LayerReadable(rev[k])
    requires |acc| == k && acc[k - 1] == Opened(rev, k - 1, 0)
    ensures LayerFrom(rev[k], 0, false, acc[k - 1], []) == Ok((Unmatched(Opened(rev, k - 1, 0), rev[k]), Opened(rev, k, 0)))
  {
    OpenedContinues(rev, k);
    LayerFromMerged(rev, k, 0, acc[k - 1], []);
    assert rev[k][0..] == rev[k];
    assert [] + Opened(rev, k, 0) == Opened(rev, k, 0);
  }

  /** One step of the reversed scan, for a layer that is not the circuit's last. */
  lemma InfoRevUnfold(rev: seq<seq<Operation>>, acc: seq<seq<GateInfo>>, rest: seq<GateInfo>, cur: seq<GateInfo>)
    requires 1 < |rev| && InfoRev(rev[..|rev| - 1]) == Ok(acc) && |acc| == |rev| - 1
    requires LayerFrom(rev[|rev| - 1], 0, false, acc[|rev| - 2], []) == Ok((rest, cur))
    ensures InfoRev(rev) == Ok((acc[..|rev| - 2] + [rest]) + [cur])
  {
  }

  /** The reference of one more reversed layer, built the way the scan builds it. */
  lemma MergedRevStep(rev: seq<seq<Operation>>)
    requires 1 < |rev|
    ensures var k := |rev| - 1;
      (MergedRev(rev[..k])[..k - 1] + [Unmatched(Opened(rev, k - 1, 0), rev[k])]) + [Opened(rev, k, 0)]
      == MergedRev(rev)
  {
    var k := |rev| - 1;
    var acc := MergedRev(rev[..k]);
    var m := MergedRev(rev);
    forall q | 0 <= q < k - 1 ensures acc[q] == m[q] {
      MergedRevPrefix(rev, k, q);
    }
    ReplaceLastTwo(acc, Unmatched(Opened(rev, k - 1, 0), rev[k]), Opened(rev, k, 0), m);
  }

  /** Replacing the last element of acc by x and appending y gives m when m agrees at every position. */
  lemma ReplaceLastTwo<T>(acc: seq<T>, x: T, y: T, m: seq<T>)
    requires 0 < |acc| && |m| == |acc| + 1
    requires forall q :: 0 <= q < |acc| - 1 ==> acc[q] == m[q]
    requires m[|acc| - 1] == x && m[|acc|] == y
    ensures (acc[..|acc| - 1] + [x]) + [y] == m
  {
  }

  /** On key-unique layers with readable control qubits the reversed scan computes the reference MergedRev. */
  lemma {:induction false} InfoRevMerged(rev: seq<seq<Operation>>)
    requires ControlQubitsReadable(rev) && AllKeysUnique(rev)
    ensures InfoRev(rev) == Ok(MergedRev(rev))
    decreases |rev|
  {
    if |rev| == 1 {
      LayerFromFirst(rev, 0, []);
      assert rev[..0] == [];
      assert [] + Opened(rev, 0, 0) == Opened(rev, 0, 0);
      assert [] + [Opened(rev, 0, 0)] == MergedRev(rev);
    } else if rev != [] {
      var pre := rev[..|rev| - 1];
      assert ControlQubitsReadable(pre) && AllKeysUnique(pre) by {
        assert forall q :: 0 <= q < |pre| ==> pre[q] == rev[q];
      }
      InfoRevMerged(pre);
      OpenedPrefix(rev, |rev| - 1, |rev| - 2, 0);
      LastLayerMerged(rev, |rev| - 1, MergedRev(pre));
      InfoRevUnfold(rev, MergedRev(pre), Unmatched(Opened(rev, |rev| - 2, 0), rev[|rev| - 1]), Opened(rev, |rev| - 1, 0));
      MergedRevStep(rev);
    }
  }

  /** A run through a key that every reversed layer from k to q holds reaches back to the gate at layer k. */
  lemma {:induction false} RunThroughReaches(rev: seq<seq<Operation>>, k: nat, q: nat, h: seq<string>, c: string)
    requires k <= q < |rev| && HasKey(rev[k], h, c) && forall x :: k <= x <= q ==> HasKey(rev[x], h, c)
    ensures var run := RunThrough(rev, q, h, c);
      q - k < |run| && run[|run| - 1 - (q - k)] == rev[k][FindKey(rev[k], h, c)]
    decreases q
  {
    if q > k {
      RunThroughReaches(rev, k, q - 1, h, c);
      var prev := RunThrough(rev, q - 1, h, c);
      assert HasKey(rev[q - 1], h, c);
      assert RunThrough(rev, q, h, c) == prev + [rev[q][FindKey(rev[q], h, c)]];
      assert (prev + [rev[q][FindKey(rev[q], h, c)]])[|prev| - 1 - (q - 1 - k)] == prev[|prev| - 1 - (q - 1 - k)];
    }
  }

  /** The last reversed layer, from k on, over which every layer holds a gate on (h, c). */
  ghost function LastHolding(rev: seq<seq<Operation>>, k: nat, h: seq<string>, c: string): (q: nat)
    requires k < |rev| && HasKey(rev[k], h, c)
    ensures k <= q < |rev| && (forall x :: k <= x <= q ==> HasKey(rev[x], h, c))
    ensures q + 1 < |rev| ==> !HasKey(rev[q + 1], h, c)
    decreases |rev| - k
  {
    if k + 1 < |rev| && HasKey(rev[k + 1], h, c) then LastHolding(rev, k + 1, h, c) else k
  }

  /** Entry e, kept at layer i0, holds op as its gate for layer i. */
  predicate Holds(e: GateInfo, i0: nat, i: nat, op: Operation) {
    i0 <= i < i0 + |e.operations| && e.operations[i0 + |e.operations| - 1 - i] == op
  }

  /** Facts about the result on key-unique layers, aligned with the circuit's layer order. */
  lemma ControlGateInfoMerged(layers: seq<seq<Operation>>)
    requires ControlQubitsReadable(layers) && AllKeysUnique(layers)
    ensures ControlGateInfo(layers) == Ok(Reverse(MergedRev(Reverse(layers))))
  {
    var rev := Reverse(layers);
    var n := |layers|;
    assert forall q :: 0 <= q < n ==> rev[q] == layers[n - 1 - q];
    assert ControlQubitsReadable(rev) && AllKeysUnique(rev);
    InfoRevMerged(rev);
  }

  /** On key-unique layers, result list i0 holds the entries layer i0 opens whose key layer i0 - 1 does not hold. */
  lemma ResultLayer(layers: seq<seq<Operation>>, i0: nat)
    requires ControlQubitsReadable(layers) && AllKeysUnique(layers) && i0 < |layers|
    ensures ControlGateInfo(layers).Ok? && |ControlGateInfo(layers).value| == |layers|
    ensures forall e :: e in ControlGateInfo(layers).value[i0] <==>
      e in Opened(Reverse(layers), |layers| - 1 - i0, 0) && (0 < i0 ==> !HasKey(layers[i0 - 1], e.hosts, e.controlQubit))
  {
    ControlGateInfoMerged(layers);
    var rev := Reverse(layers);
    var m := MergedRev(rev);
    var q := |layers| - 1 - i0;
    assert ControlGateInfo(layers).value[i0] == m[q];
    if 0 < i0 {
      assert m[q] == Unmatched(Opened(rev, q, 0), rev[q + 1]);
      UnmatchedMembers(Opened(rev, q, 0), rev[q + 1]);
      assert rev[q + 1] == layers[i0 - 1];
    } else {
      assert m[q] == Opened(rev, q, 0);
    }
  }

  /** On key-unique layers, every cross-node gate is held by some entry of the result. */
  lemma GateInSomeRun(layers: seq<seq<Operation>>, i: nat, j: nat)
    requires ControlQubitsReadable(layers) && AllKeysUnique(layers)
    requires i < |layers| && j < |layers[i]| && IsControlGateOverTwoHosts(layers[i][j])
    ensures ControlGateInfo(layers).Ok?
    ensures var r := ControlGateInfo(layers).value;
      exists i0, e :: 0 <= i0 < |r| && e in r[i0] && Holds(e, i0, i, layers[i][j])
  {
    var rev := Reverse(layers);
    var n := |layers|;
    var k := n - 1 - i;
    assert rev[k] == layers[i];
    var op := layers[i][j];
    var h, c := op.hosts, ControlQubit(op).value;
    FindKeyUnique(rev[k], j);
    var q := LastHolding(rev, k, h, c);
    var x := FindKey(rev[q], h, c);
    OpenedComplete(rev, q, 0, x);
    var e := GateInfo(x, h, c, RunThrough(rev, q, h, c));
    var i0 := n - 1 - q;
    ResultLayer(layers, i0);
    if 0 < i0 {
      assert layers[i0 - 1] == rev[q + 1];
    }
    assert e in ControlGateInfo(layers).value[i0];
    RunThroughReaches(rev, k, q, h, c);
    assert Holds(e, i0, i, op);
  }

  /** Two entries of one result list on the same key are the same entry. */
  lemma SameKeySameEntry(layers: seq<seq<Operation>>, i0: nat, e: GateInfo, e1: GateInfo)
    requires ControlQubitsReadable(layers) && AllKeysUnique(layers)
    requires ControlGateInfo(layers).Ok? && i0 < |ControlGateInfo(layers).value|
    requires e in ControlGateInfo(layers).value[i0] && e1 in ControlGateInfo(layers).value[i0]
    requires SameRun(e1, e.hosts, e.controlQubit)
    ensures e == e1
  {
    ResultLayer(layers, i0);
    var rev := Reverse(layers);
    var q := |layers| - 1 - i0;
    assert e in Opened(rev, q, 0) && e1 in Opened(rev, q, 0);
    OpenedEntries(rev, q, 0);
    assert rev[q] == layers[i0];
    KeyOnce(rev[q], e.opIndex, e1.opIndex, e.hosts, e.controlQubit);
  }

  /** An entry kept at layer i0 > 0 is one whose key layer i0 - 1 does not hold. */
  lemma KeptNotContinued(layers: seq<seq<Operation>>, i0: nat, e: GateInfo)
    requires ControlQubitsReadable(layers) && AllKeysUnique(layers)
    requires ControlGateInfo(layers).Ok? && 0 < i0 < |ControlGateInfo(layers).value|
    requires e in ControlGateInfo(layers).value[i0]
    ensures !HasKey(layers[i0 - 1], e.hosts, e.controlQubit)
  {
    ResultLayer(layers, i0);
  }

  /** On key-unique layers, at most one entry of the result holds a given cross-node gate. */
  lemma GateInOneRun(layers: seq<seq<Operation>>, i: nat, op: Operation, i0: nat, e: GateInfo, i1: nat, e1: GateInfo)
    requires ControlQubitsReadable(layers) && AllKeysUnique(layers)
    requires ControlGateInfo(layers).Ok?
    requires i0 < |ControlGateInfo(layers).value| && e in ControlGateInfo(layers).value[i0] && Holds(e, i0, i, op)
    requires i1 < |ControlGateInfo(layers).value| && e1 in ControlGateInfo(layers).value[i1] && Holds(e1, i1, i, op)
    requires i0 <= i1
    ensures i0 == i1 && e == e1
  {
    ControlGateInfoRuns(layers);
    var r := ControlGateInfo(layers).value;
    assert RunAt(e, layers, i0) && RunAt(e1, layers, i1);
    var n, n1 := |e.operations|, |e1.operations|;
    assert OnKey(e.operations[i0 + n - 1 - i], e.hosts, e.controlQubit);
    assert OnKey(e1.operations[i1 + n1 - 1 - i], e1.hosts, e1.controlQubit);
    assert SameRun(e1, e.hosts, e.controlQubit);
    if i0 < i1 {
      var g := e.operations[i0 + n - 1 - (i1 - 1)];
      assert g in layers[i1 - 1] && OnKey(g, e.hosts, e.controlQubit);
      var x :| 0 <= x < |layers[i1 - 1]| && layers[i1 - 1][x] == g;
      HasKeyAt(layers[i1 - 1], x, e.hosts, e.controlQubit);
      KeptNotContinued(layers, i1, e1);
      assert false;
    }
    SameKeySameEntry(layers, i0, e, e1);
  }

  /**
   * When no layer holds two cross-node gates on the same ordered host pair
   * and control qubit, and every control qubit is readable, the scan
   * succeeds and every cross-node gate of the circuit lies in exactly one
   * run: one entry, kept at one layer, holds it as its gate for its layer.
   */
  lemma ControlGateInfoCovers(layers: seq<seq<Operation>>)
    requires ControlQubitsReadable(layers) && AllKeysUnique(layers)
    ensures ControlGateInfo(layers).Ok?
    ensures var r := ControlGateInfo(layers).value;
      forall i, j :: 0 <= i < |layers| && 0 <= j < |layers[i]| && IsControlGateOverTwoHosts(layers[i][j]) ==>
        (exists i0, e :: 0 <= i0 < |r| && e in r[i0] && Holds(e, i0, i, layers[i][j]))
        && forall i0, e, i1, e1 ::
             (0 <= i0 < |r| && e in r[i0] && Holds(e, i0, i, layers[i][j])
              && 0 <= i1 < |r| && e1 in r[i1] && Holds(e1, i1, i, layers[i][j]))
             ==> i0 == i1 && e == e1
  {
    ControlGateInfoOk(layers);
    var r := ControlGateInfo(layers).value;
    forall i, j | 0 <= i < |layers| && 0 <= j < |layers[i]| && IsControlGateOverTwoHosts(layers[i][j])
      ensures (exists i0, e :: 0 <= i0 < |r| && e in r[i0] && Holds(e, i0, i, layers[i][j]))
        && forall i0, e, i1, e1 ::
             (0 <= i0 < |r| && e in r[i0] && Holds(e, i0, i, layers[i][j])
              && 0 <= i1 < |r| && e1 in r[i1] && Holds(e1, i1, i, layers[i][j]))
             ==> i0 == i1 && e == e1
    {
      GateInSomeRun(layers, i, j);
      forall i0, e, i1, e1 |
        0 <= i0 < |r| && e in r[i0] && Holds(e, i0, i, layers[i][j])
        && 0 <= i1 < |r| && e1 in r[i1] && Holds(e1, i1, i, layers[i][j])
        ensures i0 == i1 && e == e1
      {
        if i0 <= i1 {
          GateInOneRun(layers, i, layers[i][j], i0, e, i1, e1);
        } else {
          GateInOneRun(layers, i, layers[i][j], i1, e1, i0, e);
        }
      }
    }
  }

  // ---------------------------------------------------------------------------
  // Outside key uniqueness: a layer with two gates on one key.

  /** A cross-node CNOT from host h0 to host h1 with the given control and target qubits. */
  function CrossCnot(ctrl: string, target: string): (op: Operation)
    ensures IsControlGateOverTwoHosts(op) && ControlQubit(op) == Ok(ctrl)
  {
    Operation(Constants.TWO_QUBIT, Some([ctrl, target]), None, Some(CNOT), None, ["h0", "h1"], false)
  }

  /** The last layer [a, x, b] opens one entry per gate, in order. */
  lemma RepeatedKeyLastLayer(a: Operation, x: Operation, b: Operation)
    requires a == CrossCnot("q0", "t1") && x == CrossCnot("q1", "t2") && b == CrossCnot("q0", "t3")
    ensures var h := ["h0", "h1"];
      InfoRev([[a, x, b]]) == Ok([[GateInfo(0, h, "q0", [a]), GateInfo(1, h, "q1", [x]), GateInfo(2, h, "q0", [b])]])
  {
    var h := ["h0", "h1"];
    var ea, ex, eb := GateInfo(0, h, "q0", [a]), GateInfo(1, h, "q1", [x]), GateInfo(2, h, "q0", [b]);
    var ops := [a, x, b];
    assert [] + [a] == [a] && [] + [x] == [x] && [] + [b] == [b];
    assert [] + [ea] == [ea] && [ea] + [ex] == [ea, ex] && [ea, ex] + [eb] == [ea, ex, eb];
    assert LayerFrom(ops, 3, true, [], [ea, ex, eb]) == Ok(([], [ea, ex, eb]));
    assert LayerFrom(ops, 2, true, [], [ea, ex]) == LayerFrom(ops, 3, true, [], [ea, ex, eb]);
    assert LayerFrom(ops, 1, true, [], [ea]) == LayerFrom(ops, 2, true, [], [ea, ex]);
    assert LayerFrom(ops, 0, true, [], []) == LayerFrom(ops, 1, true, [], [ea]);
    assert [ops][..0] == [];
    assert InfoRev([ops][..0]) == Ok([]);
    assert [] + [[ea, ex, eb]] == [[ea, ex, eb]];
  }

  /** Gate g of the first layer deletes the entries of a and b, skips x's, and extends b's run. */
  lemma RepeatedKeyFirstLayer(g: Operation, a: Operation, x: Operation, b: Operation)
    requires g == CrossCnot("q0", "t0") && a == CrossCnot("q0", "t1") && x == CrossCnot("q1", "t2")
    requires b == CrossCnot("q0", "t3")
    ensures var h := ["h0", "h1"];
      LayerFrom([g], 0, false, [GateInfo(0, h, "q0", [a]), GateInfo(1, h, "q1", [x]), GateInfo(2, h, "q0", [b])], [])
      == Ok(([GateInfo(1, h, "q1", [x])], [GateInfo(0, h, "q0", [b, g])]))
  {
    var h := ["h0", "h1"];
    var ea, ex, eb := GateInfo(0, h, "q0", [a]), GateInfo(1, h, "q1", [x]), GateInfo(2, h, "q0", [b]);
    var eg := GateInfo(0, h, "q0", [b, g]);
    assert [ea, ex, eb][..0] + [ea, ex, eb][1..] == [ex, eb];
    assert [ex, eb][..1] + [ex, eb][2..] == [ex];
    assert ScanFrom([ex], 2, h, "q0", [b]) == ([ex], [b]);
    assert ScanFrom([ex, eb], 1, h, "q0", [a]) == ScanFrom([ex], 2, h, "q0", [b]);
    assert ScanFrom([ea, ex, eb], 0, h, "q0", []) == ScanFrom([ex, eb], 1, h, "q0", [a]);
    assert [g][0] == g && g.hosts == h && [b] + [g] == [b, g];
    assert [] + [GateInfo(0, g.hosts, "q0", [b] + [g])] == [eg];
    assert LayerFrom([g], 1, false, [ex], [eg]) == Ok(([ex], [eg]));
  }

  /**
   * Layers [[g], [a, x, b]] with a, b and g on one key and x on another:
   * the scan of g deletes a's entry, skips x, deletes b's entry and keeps
   * b's run, so no entry of the result holds a.
   */
  lemma RepeatedKeyDropsRun()
    ensures var g, a, x, b := CrossCnot("q0", "t0"), CrossCnot("q0", "t1"), CrossCnot("q1", "t2"), CrossCnot("q0", "t3");
      var r := ControlGateInfo([[g], [a, x, b]]);
      r == Ok([[GateInfo(0, ["h0", "h1"], "q0", [b, g])], [GateInfo(1, ["h0", "h1"], "q1", [x])]])
      && forall i0, e :: 0 <= i0 < |r.value| && e in r.value[i0] ==> !Holds(e, i0, 1, a)
  {
    var g, a, x, b := CrossCnot("q0", "t0"), CrossCnot("q0", "t1"), CrossCnot("q1", "t2"), CrossCnot("q0", "t3");
    var h := ["h0", "h1"];
    var ex, eg := GateInfo(1, h, "q1", [x]), GateInfo(0, h, "q0", [b, g]);
    var rev := Reverse([[g], [a, x, b]]);
    assert rev == [[a, x, b], [g]];
    assert rev[..1] == [[a, x, b]] && rev[1] == [g];
    RepeatedKeyLastLayer(a, x, b);
    RepeatedKeyFirstLayer(g, a, x, b);
    assert ([[GateInfo(0, h, "q0", [a]), ex, GateInfo(2, h, "q0", [b])]][..0] + [[ex]]) + [[eg]] == [[ex], [eg]];
    assert InfoRev(rev) == Ok([[ex], [eg]]);
    assert Reverse([[ex], [eg]]) == [[eg], [ex]];
    assert b != a && x != a;
  }
}
