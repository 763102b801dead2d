/** The Layer class of interlinq/objects/layer.py: an operation list edited in place. */
module Layers {
  import opened Wrappers
  import opened Operations

  /** Some operation of the list is a two-qubit gate naming two hosts. */
  predicate HasControlGate(ops: seq<Operation>) {
    exists i :: 0 <= i < |ops| && IsControlGateOverTwoHosts(ops[i])
  }

  /** Python's index normalisation for pop: a negative index counts from the end. */
  function PopIndex(index: int, length: nat): int {
    if index < 0 then index + length else index
  }

  class Layer {
    var operations: seq<Operation>

    /** Without a list the layer starts empty; a given list is used as it is. */
    constructor (ops: Option<seq<Operation>>)
      ensures operations == if ops.Some? then ops.value else []
    {
      operations := if ops.Some? then ops.value else [];
    }

    /** The depth is a stub that always answers 0, so the length of a layer is 0 too. */
    function Depth(): (d: nat)
      reads this
      ensures d == 0
    {
      0
    }

    method AddOperation(op: Operation)
      modifies this
      ensures operations == old(operations) + [op]
      ensures |operations| == |old(operations)| + 1 && operations[|operations| - 1] == op
    {
      operations := operations + [op];
    }

    method AddOperations(ops: seq<Operation>)
      modifies this
      ensures operations == old(operations) + ops
    {
      operations := operations + ops;
    }

    /** Scans the list with a flag, as the source does. */
    method ControlGatePresent() returns (present: bool)
      ensures present <==> HasControlGate(operations)
    {
      present := false;
      var i := 0;
      while i < |operations|
        invariant 0 <= i <= |operations|
        invariant present <==> HasControlGate(operations[..i])
      {
        if operations[i].name == "TWO_QUBIT" && |operations[i].hosts| == 2 {
          present := true;
        }
        assert operations[..i + 1] == operations[..i] + [operations[i]];
        i := i + 1;
      }
      assert operations[..i] == operations;
    }

    /**
     * Deletes element index (negative counts from the end) and shifts the
     * later ones down; an index out of range raises IndexError and changes nothing.
     */
    method RemoveOperation(index: int) returns (err: Option<Error>)
      modifies this
      ensures var k := PopIndex(index, |old(operations)|);
        if 0 <= k < |old(operations)| then
          err == None && operations == old(operations)[..k] + old(operations)[k + 1..]
        else
          err == Some(IndexError) && operations == old(operations)
    {
      var k := PopIndex(index, |operations|);
      if 0 <= k < |operations| {
        operations := operations[..k] + operations[k + 1..];
        err := None;
      } else {
        err := Some(IndexError);
      }
    }
  }

  /** Removing element k keeps the ones before it and moves each later one down by one. */
  lemma {:induction false} RemovalShifts(s: seq<Operation>, k: nat)
    requires k < |s|
    ensures var r := s[..k] + s[k + 1..];
      |r| == |s| - 1
      && (forall j :: 0 <= j < k ==> r[j] == s[j])
      && (forall j :: k <= j < |r| ==> r[j] == s[j + 1])
  {
  }
}
