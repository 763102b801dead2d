/**
 * The Circuit class of interlinq/objects/circuit.py: a qubit map (host id to
 * the host's qubit ids, kept in the dictionary's key order) and a list of
 * Layer objects.
 */
module Circuits {
  import opened Wrappers
  import opened Seqs
  import opened Operations
  import opened Layers
  import opened ControlGates
  import opened QubitBuilder

  /** The value of a qubit-info entry: a list of qubit ids, or something that is not a list. */
  datatype InfoValue = QubitList(qubits: seq<string>) | NotAList

  const NotAListMessage: string := "Qubits for a computing host should be provided as a list"
  const QubitAlreadyAdded: string := "Qubit already added"

  predicate NoDuplicates(s: seq<string>) {
    forall i, j :: 0 <= i < j < |s| ==> s[i] != s[j]
  }

  /** Sum of the list lengths of the hosts in `order`. */
  function TotalOf(order: seq<string>, qMap: map<string, seq<string>>): nat
    requires forall h :: h in order ==> h in qMap
  {
    if order == [] then 0
    else TotalOf(order[..|order| - 1], qMap) + |qMap[order[|order| - 1]]|
  }

  /**
   * Appends the qubits one by one, stopping (and reporting it) at the first
   * one already in the list, with the earlier ones appended.
   */
  function AppendUntilDuplicate(existing: seq<string>, qs: seq<string>): (seq<string>, bool)
    decreases |qs|
  {
    if qs == [] then (existing, false)
    else if qs[0] in existing then (existing, true)
    else AppendUntilDuplicate(existing + [qs[0]], qs[1..])
  }

  /** The appended list is the old one followed by a prefix of the new qubits, all of them unless it failed. */
  lemma {:induction false} AppendUntilDuplicatePrefix(existing: seq<string>, qs: seq<string>)
    ensures var (r, failed) := AppendUntilDuplicate(existing, qs);
      (!failed ==> r == existing + qs) && exists k :: 0 <= k <= |qs| && r == existing + qs[..k]
    decreases |qs|
  {
    if qs == [] {
      assert existing + qs[..0] == existing;
    } else if qs[0] in existing {
      assert existing + qs[..0] == existing;
    } else {
      var e2 := existing + [qs[0]];
      AppendUntilDuplicatePrefix(e2, qs[1..]);
      var (r, failed) := AppendUntilDuplicate(e2, qs[1..]);
      var k :| 0 <= k <= |qs[1..]| && r == e2 + qs[1..][..k];
      assert e2 + qs[1..][..k] == existing + qs[..k + 1];
      if !failed {
        assert qs == [qs[0]] + qs[1..];
      }
    }
  }

  /** Appending fails exactly when some new qubit is already listed or repeats an earlier new one. */
  lemma {:induction false} AppendUntilDuplicateFails(existing: seq<string>, qs: seq<string>)
    ensures AppendUntilDuplicate(existing, qs).1 <==>
      exists i :: 0 <= i < |qs| && (qs[i] in existing || qs[i] in qs[..i])
    decreases |qs|
  {
    if qs != [] && qs[0] !in existing {
      var e2 := existing + [qs[0]];
      AppendUntilDuplicateFails(e2, qs[1..]);
      if AppendUntilDuplicate(e2, qs[1..]).1 {
        var i :| 0 <= i < |qs[1..]| && (qs[1..][i] in e2 || qs[1..][i] in qs[1..][..i]);
        assert qs[i + 1] == qs[1..][i];
        assert qs[1..][..i] == qs[1..i + 1];
        if qs[i + 1] in e2 {
          assert qs[i + 1] in existing || qs[i + 1] == qs[0];
          assert qs[0] == qs[..i + 1][0];
        }
      }
      if exists i :: 0 <= i < |qs| && (qs[i] in existing || qs[i] in qs[..i]) {
        var i :| 0 <= i < |qs| && (qs[i] in existing || qs[i] in qs[..i]);
        assert i > 0;
        assert qs[1..][i - 1] == qs[i];
        assert qs[..i] == [qs[0]] + qs[1..][..i - 1];
      }
    } else if qs != [] {
      assert qs[0] in existing;
    }
  }

  /** Appending never creates a duplicate. */
  lemma {:induction false} AppendUntilDuplicateDistinct(existing: seq<string>, qs: seq<string>)
    requires NoDuplicates(existing)
    ensures NoDuplicates(AppendUntilDuplicate(existing, qs).0)
    decreases |qs|
  {
    if qs != [] && qs[0] !in existing {
      AppendUntilDuplicateDistinct(existing + [qs[0]], qs[1..]);
    }
  }

  /**
   * Appending never creates a duplicate; it fails exactly when some new qubit
   * is already listed or repeats an earlier new one, and without failure
   * every new qubit is appended in order.
   */
  lemma AppendUntilDuplicateSpec(existing: seq<string>, qs: seq<string>)
    requires NoDuplicates(existing)
    ensures var (r, failed) := AppendUntilDuplicate(existing, qs);
      NoDuplicates(r)
      && (failed <==> exists i :: 0 <= i < |qs| && (qs[i] in existing || qs[i] in qs[..i]))
      && (!failed ==> r == existing + qs)
      && (exists k :: 0 <= k <= |qs| && r == existing + qs[..k])
  {
    AppendUntilDuplicatePrefix(existing, qs);
    AppendUntilDuplicateFails(existing, qs);
    AppendUntilDuplicateDistinct(existing, qs);
  }

  /** Sum of list lengths after one host's list grows by `extra`. */
  lemma {:induction false} TotalOfGrow(order: seq<string>, qMap: map<string, seq<string>>, h: string, extra: seq<string>)
    requires forall x :: x in order ==> x in qMap
    requires h in qMap && NoDuplicates(order)
    ensures TotalOf(order, qMap[h := qMap[h] + extra]) == TotalOf(order, qMap) + (if h in order then |extra| else 0)
  {
    if order != [] {
      var pre := order[..|order| - 1];
      assert NoDuplicates(pre);
      TotalOfGrow(pre, qMap, h, extra);
      if order[|order| - 1] == h {
        assert h !in pre;
      } else {
        assert h in order ==> h in pre;
      }
    }
  }

  /** Index at which Python's list.insert puts an element (negative counts from the end, clamped). */
  function InsertPos(index: int, length: nat): (k: nat)
    ensures k <= length
  {
    if index < 0 then (if index + length < 0 then 0 else index + length)
    else if index > length then length else index
  }

  /** The operations the qubits recorded at layer k, in qubit order. */
  function LayerAt(maps: seq<map<nat, Operation>>, k: nat): seq<Operation> {
    if maps == [] then []
    else LayerAt(maps[..|maps| - 1], k) + (if k in maps[|maps| - 1] then [maps[|maps| - 1][k]] else [])
  }

  /** The operations the qubits recorded at layer index k, in qubit order. */
  method CollectLayer(qs: seq<Qubit>, k: nat) returns (ops: seq<Operation>)
    ensures ops == LayerAt(MapsOf(qs), k)
  {
    ghost var maps := MapsOf(qs);
    ops := [];
    var i := 0;
    while i < |qs|
      invariant 0 <= i <= |qs|
      invariant ops == LayerAt(maps[..i], k)
    {
      assert maps[..i + 1][..i] == maps[..i];
      if k in qs[i].operations {
        ops := ops + [qs[i].operations[k]];
      }
      i := i + 1;
    }
    assert maps[..i] == maps;
  }

  /** Layer k is empty exactly when no qubit recorded anything at k. */
  lemma {:induction false} LayerAtEmpty(maps: seq<map<nat, Operation>>, k: nat)
    ensures LayerAt(maps, k) == [] <==> forall i :: 0 <= i < |maps| ==> k !in maps[i]
  {
    if maps != [] {
      var pre := maps[..|maps| - 1];
      LayerAtEmpty(pre, k);
      assert forall i :: 0 <= i < |pre| ==> pre[i] == maps[i];
    }
  }

  /** A bound beyond every key of a finite set. */
  ghost function SetBound(s: set<nat>): (b: nat)
    ensures forall k :: k in s ==> k < b
    decreases s
  {
    if s == {} then 0
    else
      var x :| x in s;
      var b := SetBound(s - {x});
      assert forall k :: k in s ==> k == x || k in s - {x};
      if x + 1 > b then x + 1 else b
  }

  ghost function KeyBound(maps: seq<map<nat, Operation>>): (b: nat)
    ensures forall i, k :: 0 <= i < |maps| && k in maps[i] ==> k < b
  {
    if maps == [] then 0
    else
      var b1 := KeyBound(maps[..|maps| - 1]);
      var b2 := SetBound(maps[|maps| - 1].Keys);
      assert forall i :: 0 <= i < |maps| - 1 ==> maps[..|maps| - 1][i] == maps[i];
      if b1 > b2 then b1 else b2
  }

  function MapsOf(qs: seq<Qubit>): (maps: seq<map<nat, Operation>>)
    reads set q | q in qs
    ensures |maps| == |qs| && forall i :: 0 <= i < |qs| ==> maps[i] == qs[i].operations
  {
    seq(|qs|, i reads set q | q in qs requires 0 <= i < |qs| => qs[i].operations)
  }

  /** A failing cross-node gate makes the rest of the layer's scan fail with its error. */
  lemma {:induction false} LayerFromFails(ops: seq<Operation>, j: nat, last: bool, later: seq<GateInfo>,
                                          cur: seq<GateInfo>)
    requires j < |ops| && IsControlGateOverTwoHosts(ops[j]) && ControlQubit(ops[j]).Err?
    ensures LayerFrom(ops, j, last, later, cur) == Err(ControlQubit(ops[j]).error)
  {
  }

  /** Once the scan of a prefix of the reversed layers fails, the whole scan fails the same way. */
  lemma {:induction false} InfoRevErrPersists(rev: seq<seq<Operation>>, m: nat, e: Error)
    requires 0 < m <= |rev| && InfoRev(rev[..m]) == Err(e)
    ensures InfoRev(rev) == Err(e)
    decreases |rev| - m
  {
    if m < |rev| {
      assert rev[..m + 1][..m] == rev[..m];
      InfoRevErrPersists(rev, m + 1, e);
    } else {
      assert rev[..m] == rev;
    }
  }

  class Circuit {
    var qMap: map<string, seq<string>>
    /** The keys of qMap in dictionary insertion order. */
    var hostOrder: seq<string>
    var layers: seq<Layer>
    var qubits: seq<Qubit>
    var width: nat

    ghost predicate Valid()
      reads this
    {
      NoDuplicates(hostOrder) && (forall h :: h in hostOrder <==> h in qMap)
    }

    /** The operation lists of the layers, in order. */
    function Ops(): (ops: seq<seq<Operation>>)
      reads this, set l | l in layers
      ensures |ops| == |layers| && forall k :: 0 <= k < |layers| ==> ops[k] == layers[k].operations
    {
      seq(|layers|, k reads this, set l | l in layers requires 0 <= k < |layers| => layers[k].operations)
    }

    /** Builds the layers from the qubits when no layers are given. */
    constructor (qMap: map<string, seq<string>>, hostOrder: seq<string>, layers: seq<Layer>, qubits: seq<Qubit>)
      requires NoDuplicates(hostOrder) && (forall h :: h in hostOrder <==> h in qMap)
      ensures Valid() && this.qMap == qMap && this.hostOrder == hostOrder && this.qubits == qubits
      ensures width == 0
      ensures layers != [] || qubits == [] ==> this.layers == layers
      ensures layers == [] && qubits != [] ==>
        forall k :: 0 <= k < |this.layers| ==>
          this.layers[k].operations == LayerAt(MapsOf(qubits), k) != []
      ensures layers == [] && qubits != [] ==> LayerAt(MapsOf(qubits), |this.layers|) == []
    {
      this.qMap := qMap;
      this.hostOrder := hostOrder;
      this.layers := layers;
      this.qubits := qubits;
      width := 0;
      new;
      if layers == [] && qubits != [] {
        CreateLayers(qubits);
      }
    }

    /** Sum of the lengths of the hosts' qubit lists. */
    method TotalQubits() returns (total: nat)
      requires Valid()
      ensures total == TotalOf(hostOrder, qMap)
    {
      total := 0;
      var i := 0;
      while i < |hostOrder|
        invariant 0 <= i <= |hostOrder|
        invariant total == TotalOf(hostOrder[..i], qMap)
      {
        assert hostOrder[..i + 1][..i] == hostOrder[..i];
        total := total + |qMap[hostOrder[i]]|;
        i := i + 1;
      }
      assert hostOrder[..i] == hostOrder;
    }

    /**
     * Adds qubits for one host. A value that is not a list raises ValueError;
     * a new host is added with its list; for a known host the qubits are
     * appended one by one until one is already listed, which raises ValueError.
     */
    method AddNewQubit(host: string, value: InfoValue) returns (err: Option<Error>)
      requires Valid()
      modifies this
      ensures Valid() && layers == old(layers) && qubits == old(qubits) && width == old(width)
      ensures value.NotAList? ==>
                err == Some(ValueError(NotAListMessage)) && qMap == old(qMap) && hostOrder == old(hostOrder)
      ensures value.QubitList? && host !in old(qMap) ==>
        err == None && qMap == old(qMap)[host := value.qubits] && hostOrder == old(hostOrder) + [host]
      ensures value.QubitList? && host in old(qMap) ==>
        var (appended, failed) := AppendUntilDuplicate(old(qMap)[host], value.qubits);
        hostOrder == old(hostOrder) && qMap == old(qMap)[host := appended]
        && (err == if failed then Some(ValueError(QubitAlreadyAdded)) else None)
        && (NoDuplicates(old(qMap)[host]) ==> NoDuplicates(qMap[host]))
        && (!failed ==> TotalOf(hostOrder, qMap) == TotalOf(old(hostOrder), old(qMap)) + |value.qubits|)
    {
      if value.NotAList? {
        return Some(ValueError(NotAListMessage));
      }
      var qs := value.qubits;
      if host !in qMap {
        qMap := qMap[host := qs];
        hostOrder := hostOrder + [host];
        return None;
      }
      ghost var start := qMap[host];
      AppendUntilDuplicatePrefix(start, qs);
      if NoDuplicates(start) {
        AppendUntilDuplicateDistinct(start, qs);
      }
      var i := 0;
      while i < |qs|
        invariant 0 <= i <= |qs| && host in qMap && hostOrder == old(hostOrder)
        invariant layers == old(layers) && qubits == old(qubits) && width == old(width)
        invariant qMap == old(qMap)[host := qMap[host]]
        invariant AppendUntilDuplicate(qMap[host], qs[i..]) == AppendUntilDuplicate(start, qs)
      {
        assert qs[i..][1..] == qs[i + 1..];
        if qs[i] in qMap[host] {
          return Some(ValueError(QubitAlreadyAdded));
        }
        qMap := qMap[host := qMap[host] + [qs[i]]];
        i := i + 1;
      }
      TotalOfGrow(hostOrder, old(qMap), host, qs);
      return None;
    }

    method AddLayerToCircuit(layer: Layer)
      modifies this
      ensures layers == old(layers) + [layer]
      ensures qMap == old(qMap) && hostOrder == old(hostOrder) && width == old(width) && qubits == old(qubits)
    {
      layers := layers + [layer];
    }

    /**
     * Collects, layer index by layer index, the operations the qubits
     * recorded there, and stops at the first index where no qubit has one:
     * operations recorded after such a gap are dropped.
     */
    method CreateLayers(qs: seq<Qubit>)
      modifies this
      ensures qMap == old(qMap) && hostOrder == old(hostOrder) && width == old(width) && qubits == old(qubits)
      ensures forall k :: 0 <= k < |layers| ==> fresh(layers[k])
      ensures forall k :: 0 <= k < |layers| ==> layers[k].operations == LayerAt(MapsOf(qs), k) != []
      ensures LayerAt(MapsOf(qs), |layers|) == []
    {
      ghost var maps := MapsOf(qs);
      ghost var bound := KeyBound(maps);
      var result: seq<Layer> := [];
      var count := 0;
      var more := true;
      while more
        invariant count == |result| + (if more then 0 else 1)
        invariant qMap == old(qMap) && hostOrder == old(hostOrder) && width == old(width) && qubits == old(qubits)
        invariant layers == old(layers)
        invariant more ==> count <= bound
        invariant !more ==> LayerAt(maps, |result|) == []
        invariant forall k :: 0 <= k < |result| ==> fresh(result[k])
        invariant forall k :: 0 <= k < |result| ==> result[k].operations == LayerAt(maps, k) != []
        decreases if more then bound + 1 - count else 0
      {
        var ops := CollectLayer(qs, count);
        if ops != [] {
          LayerAtEmpty(maps, count);
          var layer := new Layer(Some(ops));
          result := result + [layer];
        } else {
          more := false;
        }
        count := count + 1;
      }
      layers := result;
    }

    /** Inserts a layer at a Python list index and widens the circuit to the layer's operation count. */
    method InsertLayer(index: int, layer: Layer)
      modifies this
      ensures var k := InsertPos(index, |old(layers)|);
        layers == old(layers)[..k] + [layer] + old(layers)[k..]
      ensures width == if |layer.operations| > old(width) then |layer.operations| else old(width)
      ensures qMap == old(qMap) && hostOrder == old(hostOrder) && qubits == old(qubits)
    {
      if |layer.operations| > width {
        width := |layer.operations|;
      }
      var k := InsertPos(index, |layers|);
      layers := layers[..k] + [layer] + layers[k..];
    }

    /** Replaces the layer at a Python list index; an index out of range raises IndexError. */
    method UpdateLayer(index: int, layer: Layer) returns (err: Option<Error>)
      modifies this
      ensures var k := PopIndex(index, |old(layers)|);
        if 0 <= k < |old(layers)| then err == None && layers == old(layers)[k := layer]
        else err == Some(IndexError) && layers == old(layers)
      ensures qMap == old(qMap) && hostOrder == old(hostOrder) && width == old(width) && qubits == old(qubits)
    {
      var k := PopIndex(index, |layers|);
      if 0 <= k < |layers| {
        layers := layers[k := layer];
        err := None;
      } else {
        err := Some(IndexError);
      }
    }

    /**
     * The backward run-merging scan, on the layers as they stand; its result
     * is the specification ControlGates.ControlGateInfo.
     */
    method ControlGateInfo() returns (r: Result<seq<seq<GateInfo>>>)
      ensures r == ControlGates.ControlGateInfo(Ops())
    {
      ghost var all := Ops();
      ghost var rev := Reverse(all);
      var n := |layers|;
      var acc: seq<seq<GateInfo>> := [];
      var k := 0;
      while k < n
        invariant 0 <= k <= n
        invariant InfoRev(rev[..k]) == Ok(acc)
      {
        var ops := layers[n - 1 - k].operations;
        assert ops == rev[k];
        var cur: seq<GateInfo> := [];
        var later: seq<GateInfo> := if k == 0 then [] else acc[k - 1];
        ghost var later0 := later;
        var j := 0;
        while j < |ops|
          invariant 0 <= j <= |ops|
          invariant LayerFrom(ops, j, k == 0, later, cur) == LayerFrom(ops, 0, k == 0, later0, [])
        {
          var op := ops[j];
          if op.name == "TWO_QUBIT" && |op.hosts| == 2 {
            var c := ControlQubit(op);
            if c.Err? {
              assert rev[..k + 1][..k] == rev[..k];
              LayerFromFails(ops, j, k == 0, later, cur);
              InfoRevErrPersists(rev, k + 1, c.error);
              assert rev[..n] == rev;
              return Err(c.error);
            }
            var taken: seq<Operation> := [];
            if k != 0 {
              ghost var live0 := later;
              var i := 0;
              while i < |later|
                invariant 0 <= i
                invariant ScanFrom(later, i, op.hosts, c.value, taken) == ScanFrom(live0, 0, op.hosts, c.value, [])
                decreases |later| - i
              {
                if later[i].hosts == op.hosts && later[i].controlQubit == c.value {
                  taken := later[i].operations;
                  later := later[..i] + later[i + 1..];
                }
                i := i + 1;
              }
            }
            cur := cur + [GateInfo(j, op.hosts, c.value, taken + [op])];
          }
          j := j + 1;
        }
        assert rev[..k + 1][..k] == rev[..k];
        acc := (if k == 0 then acc else acc[..k - 1] + [later]) + [cur];
        k := k + 1;
      }
      assert rev[..n] == rev;
      r := Ok(Reverse(acc));
    }
  }
}
