/**
 * The greedy round scheduler of examples/vqe-examples/general_scheduler.py.
 * Each QPU k has qubitsPerQpu[k] qubits; each of numLikelihoods states needs
 * oracleSize qubits. Round by round, every state either gets a distribution
 * (how many of its qubits each QPU holds) taken greedily from the QPUs with
 * the most free qubits, or is postponed to the next round, where all
 * capacities are full again.
 */
module GreedyScheduler {
  import opened Seqs

  /** One [free qubits, QPU index] pair of the working list. */
  datatype Slot = Slot(free: nat, qpu: nat)

  /** One scheduled state: its index within the round and its distribution. */
  type Entry = (nat, seq<nat>)

  // ---------------------------------------------------------------------------
  // Sums over slot lists and allocations.

  /** The free qubits of all listed slots. */
  function Total(ms: seq<Slot>): nat {
    if ms == [] then 0 else Total(ms[..|ms| - 1]) + ms[|ms| - 1].free
  }

  /** The free qubits the list holds for QPU k. */
  function FreeOf(ms: seq<Slot>, k: nat): nat {
    if ms == [] then 0
    else FreeOf(ms[..|ms| - 1], k) + (if ms[|ms| - 1].qpu == k then ms[|ms| - 1].free else 0)
  }

  /** The number of listed slots with free qubits. */
  function CountNonZero(ms: seq<Slot>): nat {
    if ms == [] then 0
    else CountNonZero(ms[..|ms| - 1]) + (if ms[|ms| - 1].free != 0 then 1 else 0)
  }

  /** The number of nonzero entries of an allocation. */
  function NonZero(a: seq<nat>): nat {
    if a == [] then 0 else NonZero(a[..|a| - 1]) + (if a[|a| - 1] != 0 then 1 else 0)
  }

  function Zeros(n: nat): (z: seq<nat>)
    ensures |z| == n && forall k :: 0 <= k < n ==> z[k] == 0
  {
    seq(n, _ => 0)
  }

  lemma {:induction false} TotalAppend(a: seq<Slot>, b: seq<Slot>)
    ensures Total(a + b) == Total(a) + Total(b)
    decreases |b|
  {
    if b == [] {
      assert a + b == a;
    } else {
      var k := |b| - 1;
      assert (a + b)[..|a + b| - 1] == a + b[..k];
      TotalAppend(a, b[..k]);
    }
  }

  lemma {:induction false} FreeOfAppend(a: seq<Slot>, b: seq<Slot>, k: nat)
    ensures FreeOf(a + b, k) == FreeOf(a, k) + FreeOf(b, k)
    decreases |b|
  {
    if b == [] {
      assert a + b == a;
    } else {
      var j := |b| - 1;
      assert (a + b)[..|a + b| - 1] == a + b[..j];
      FreeOfAppend(a, b[..j], k);
    }
  }

  lemma {:induction false} CountNonZeroAppend(a: seq<Slot>, b: seq<Slot>)
    ensures CountNonZero(a + b) == CountNonZero(a) + CountNonZero(b)
    decreases |b|
  {
    if b == [] {
      assert a + b == a;
    } else {
      var j := |b| - 1;
      assert (a + b)[..|a + b| - 1] == a + b[..j];
      CountNonZeroAppend(a, b[..j]);
    }
  }

  /** A QPU no slot names holds nothing. */
  lemma {:induction false} FreeOfAbsent(ms: seq<Slot>, k: nat)
    requires forall e :: e in ms ==> e.qpu != k
    ensures FreeOf(ms, k) == 0
  {
    if ms != [] {
      assert forall e :: e in ms[..|ms| - 1] ==> e in ms;
      FreeOfAbsent(ms[..|ms| - 1], k);
    }
  }

  /** Raising one entry of an allocation raises its sum by as much. */
  lemma {:induction false} SumUpdate(a: seq<nat>, k: nat, v: nat)
    requires k < |a|
    ensures Sum(a[k := v]) + a[k] == Sum(a) + v
  {
    var j := |a| - 1;
    var b := a[k := v];
    assert b[..j] == if k < j then a[..j][k := v] else a[..j];
    if k < j {
      SumUpdate(a[..j], k, v);
    }
  }

  lemma SumAdd(a: seq<nat>, k: nat, t: nat)
    requires k < |a|
    ensures Sum(a[k := a[k] + t]) == Sum(a) + t
  {
    SumUpdate(a, k, a[k] + t);
  }

  /** Setting a zero entry changes the nonzero count by whether the new value is nonzero. */
  lemma {:induction false} NonZeroUpdate(a: seq<nat>, k: nat, v: nat)
    requires k < |a| && a[k] == 0
    ensures NonZero(a[k := v]) == NonZero(a) + (if v != 0 then 1 else 0)
  {
    var j := |a| - 1;
    var b := a[k := v];
    assert b[..j] == if k < j then a[..j][k := v] else a[..j];
    if k < j {
      NonZeroUpdate(a[..j], k, v);
    }
  }

  lemma {:induction false} ZerosSums(n: nat)
    ensures Sum(Zeros(n)) == 0 && NonZero(Zeros(n)) == 0
  {
    if n > 0 {
      assert Zeros(n)[..n - 1] == Zeros(n - 1);
      ZerosSums(n - 1);
    }
  }

  /** is_not_distributed_computing: exactly one QPU holds qubits of the allocation. */
  predicate IsNotDistributed(a: seq<nat>) {
    NonZero(a) == 1
  }

  /** Entry k is the only nonzero entry of a. */
  predicate OnlyNonZero(a: seq<nat>, k: int) {
    0 <= k < |a| && a[k] != 0 && forall j :: 0 <= j < |a| && j != k ==> a[j] == 0
  }

  lemma {:induction false} OnlyNonZeroCounts(a: seq<nat>, k: int)
    requires OnlyNonZero(a, k)
    ensures IsNotDistributed(a)
  {
    var n := |a| - 1;
    var p := a[..n];
    if k == n {
      NonZeroAllZero(p);
    } else {
      assert OnlyNonZero(p, k);
      OnlyNonZeroCounts(p, k);
    }
  }

  lemma {:induction false} NotDistributedHasOne(a: seq<nat>) returns (k: int)
    requires IsNotDistributed(a)
    ensures OnlyNonZero(a, k)
  {
    var n := |a| - 1;
    var p := a[..n];
    if a[n] != 0 {
      NonZeroAllZero(p);
      k := n;
    } else {
      k := NotDistributedHasOne(p);
    }
  }

  /** An allocation is not distributed exactly when one entry alone is nonzero. */
  lemma IsNotDistributedOneQpu(a: seq<nat>)
    ensures IsNotDistributed(a) <==> exists k :: OnlyNonZero(a, k)
  {
    if IsNotDistributed(a) {
      var k := NotDistributedHasOne(a);
    }
    if exists k :: OnlyNonZero(a, k) {
      var k :| OnlyNonZero(a, k);
      OnlyNonZeroCounts(a, k);
    }
  }

  /** An allocation counts no nonzero entry exactly when all its entries are zero. */
  lemma {:induction false} NonZeroAllZero(a: seq<nat>)
    ensures NonZero(a) == 0 <==> forall j :: 0 <= j < |a| ==> a[j] == 0
  {
    if a != [] {
      var n := |a| - 1;
      NonZeroAllZero(a[..n]);
      assert forall j :: 0 <= j < n ==> a[..n][j] == a[j];
    }
  }

  // ---------------------------------------------------------------------------
  // Shape of the working list.

  /** No two slots of the list name the same QPU. */
  predicate Distinct(ms: seq<Slot>) {
    forall i, j :: 0 <= i < j < |ms| ==> ms[i].qpu != ms[j].qpu
  }

  /** Non-increasing by free qubits. */
  predicate SortedDesc(ms: seq<Slot>) {
    forall i, j :: 0 <= i < j < |ms| ==> ms[i].free >= ms[j].free
  }

  /** The position a stable descending sort gives x: after every slot with at least as many free qubits. */
  function InsertPos(x: Slot, s: seq<Slot>): (p: nat)
    ensures p <= |s|
  {
    if s == [] || s[0].free < x.free then 0 else 1 + InsertPos(x, s[1..])
  }

  lemma {:induction false} InsertPosSplits(x: Slot, s: seq<Slot>)
    requires SortedDesc(s)
    ensures forall i :: 0 <= i < InsertPos(x, s) ==> s[i].free >= x.free
    ensures forall i :: InsertPos(x, s) <= i < |s| ==> s[i].free < x.free
  {
    if s != [] && s[0].free >= x.free {
      InsertPosSplits(x, s[1..]);
      forall i | 0 <= i < InsertPos(x, s) ensures s[i].free >= x.free {
        if i > 0 { assert s[1..][i - 1] == s[i]; }
      }
      forall i | InsertPos(x, s) <= i < |s| ensures s[i].free < x.free {
        assert s[1..][i - 1] == s[i];
      }
    }
  }

  function Insert(x: Slot, s: seq<Slot>): (r: seq<Slot>)
    ensures |r| == |s| + 1
  {
    var p := InsertPos(x, s);
    s[..p] + [x] + s[p..]
  }

  /** list.sort(key=free, reverse=True): Python's sort is stable, also in reverse. */
  function SortDesc(ms: seq<Slot>): (r: seq<Slot>)
    ensures |r| == |ms|
  {
    if ms == [] then [] else Insert(ms[|ms| - 1], SortDesc(ms[..|ms| - 1]))
  }

  lemma InsertFacts(x: Slot, s: seq<Slot>)
    ensures multiset(Insert(x, s)) == multiset(s) + multiset{x}
    ensures Total(Insert(x, s)) == Total(s) + x.free
    ensures forall k :: FreeOf(Insert(x, s), k) == FreeOf(s, k) + (if x.qpu == k then x.free else 0)
  {
    var p := InsertPos(x, s);
    assert s == s[..p] + s[p..];
    TotalAppend(s[..p] + [x], s[p..]);
    TotalAppend(s[..p], [x]);
    TotalAppend(s[..p], s[p..]);
    forall k ensures FreeOf(Insert(x, s), k) == FreeOf(s, k) + (if x.qpu == k then x.free else 0) {
      FreeOfAppend(s[..p] + [x], s[p..], k);
      FreeOfAppend(s[..p], [x], k);
      FreeOfAppend(s[..p], s[p..], k);
    }
  }

  lemma InsertSorted(x: Slot, s: seq<Slot>)
    requires SortedDesc(s)
    ensures SortedDesc(Insert(x, s))
  {
    InsertPosSplits(x, s);
  }

  lemma InsertDistinct(x: Slot, s: seq<Slot>)
    requires Distinct(s) && forall e :: e in s ==> e.qpu != x.qpu
    ensures Distinct(Insert(x, s))
  {
    var p := InsertPos(x, s);
    var r := Insert(x, s);
    forall i, j | 0 <= i < j < |r| ensures r[i].qpu != r[j].qpu {
      var si := if i < p then i else if i == p then -1 else i - 1;
      var sj := if j < p then j else if j == p then -1 else j - 1;
      if si == -1 {
        assert r[j] == s[sj];
      } else if sj == -1 {
        assert r[i] == s[si];
      } else {
        assert r[i] == s[si] && r[j] == s[sj];
      }
    }
  }

  /** The sort keeps the slots and orders them. */
  lemma {:induction false} SortDescFacts(ms: seq<Slot>)
    ensures multiset(SortDesc(ms)) == multiset(ms)
    ensures SortedDesc(SortDesc(ms))
    ensures Total(SortDesc(ms)) == Total(ms)
    ensures forall k :: FreeOf(SortDesc(ms), k) == FreeOf(ms, k)
  {
    if ms != [] {
      var n := |ms| - 1;
      var x := ms[n];
      var s := SortDesc(ms[..n]);
      SortDescFacts(ms[..n]);
      assert ms == ms[..n] + [x];
      InsertFacts(x, s);
      InsertSorted(x, s);
    }
  }

  /** The sort keeps QPUs distinct. */
  lemma {:induction false} SortDescDistinct(ms: seq<Slot>)
    requires Distinct(ms)
    ensures Distinct(SortDesc(ms))
  {
    if ms != [] {
      var n := |ms| - 1;
      var x := ms[n];
      var s := SortDesc(ms[..n]);
      var prefix := ms[..n];
      assert Distinct(prefix) by {
        forall i, j | 0 <= i < j < n ensures prefix[i].qpu != prefix[j].qpu {
          assert prefix[i] == ms[i] && prefix[j] == ms[j];
        }
      }
      SortDescDistinct(prefix);
      SortDescFacts(prefix);
      forall e | e in s ensures e.qpu != x.qpu {
        assert e in multiset(s);
        assert e in prefix;
        var i :| 0 <= i < n && prefix[i] == e;
        assert ms[i] == e;
      }
      InsertDistinct(x, s);
    }
  }

  /** The comprehension that drops the slots with no free qubits left. */
  function KeepFree(ms: seq<Slot>): seq<Slot> {
    if ms == [] then []
    else KeepFree(ms[..|ms| - 1]) + (if ms[|ms| - 1].free != 0 then [ms[|ms| - 1]] else [])
  }

  lemma {:induction false} KeepFreeMembers(ms: seq<Slot>)
    ensures forall e :: e in KeepFree(ms) <==> e in ms && e.free != 0
  {
    if ms != [] {
      var n := |ms| - 1;
      KeepFreeMembers(ms[..n]);
      assert ms == ms[..n] + [ms[n]];
    }
  }

  lemma {:induction false} KeepFreeCounts(ms: seq<Slot>, k: nat)
    ensures FreeOf(KeepFree(ms), k) == FreeOf(ms, k)
  {
    if ms != [] {
      var n := |ms| - 1;
      KeepFreeCounts(ms[..n], k);
      FreeOfAppend(KeepFree(ms[..n]), if ms[n].free != 0 then [ms[n]] else [], k);
    }
  }

  lemma {:induction false} KeepFreeDistinct(ms: seq<Slot>)
    requires Distinct(ms)
    ensures Distinct(KeepFree(ms))
  {
    if ms != [] {
      var n := |ms| - 1;
      var x := ms[n];
      var p := KeepFree(ms[..n]);
      DistinctPrefix(ms, n);
      KeepFreeDistinct(ms[..n]);
      KeepFreeMembers(ms[..n]);
      var tail: seq<Slot> := if x.free != 0 then [x] else [];
      forall i, j | 0 <= i < j < |p + tail| ensures (p + tail)[i].qpu != (p + tail)[j].qpu {
        if j == |p| {
          assert (p + tail)[i] in ms[..n];
          var i' :| 0 <= i' < n && ms[..n][i'] == (p + tail)[i];
          assert ms[i'].qpu != ms[n].qpu;
        }
      }
    }
  }

  /** Dropping empty slots keeps exactly the slots with free qubits and every QPU's count. */
  lemma KeepFreeFacts(ms: seq<Slot>)
    ensures forall e :: e in KeepFree(ms) <==> e in ms && e.free != 0
    ensures forall k :: FreeOf(KeepFree(ms), k) == FreeOf(ms, k)
    ensures Distinct(ms) ==> Distinct(KeepFree(ms))
  {
    KeepFreeMembers(ms);
    forall k ensures FreeOf(KeepFree(ms), k) == FreeOf(ms, k) {
      KeepFreeCounts(ms, k);
    }
    if Distinct(ms) {
      KeepFreeDistinct(ms);
    }
  }

  /** The working list a round starts from: [[qubitsPerQpu[i], i] for each i]. */
  function Initial(caps: seq<nat>): (ms: seq<Slot>)
    ensures |ms| == |caps|
  {
    seq(|caps|, i requires 0 <= i < |caps| => Slot(caps[i], i))
  }

  lemma {:induction false} InitialFacts(caps: seq<nat>)
    ensures Distinct(Initial(caps))
    ensures Total(Initial(caps)) == Sum(caps)
    ensures forall k :: 0 <= k < |caps| ==> FreeOf(Initial(caps), k) == caps[k]
    ensures forall e :: e in Initial(caps) ==> e.qpu < |caps| && e.free == caps[e.qpu]
  {
    if caps != [] {
      var n := |caps| - 1;
      InitialFacts(caps[..n]);
      assert Initial(caps)[..n] == Initial(caps[..n]);
      forall k | 0 <= k < |caps| ensures FreeOf(Initial(caps), k) == caps[k] {
        if k == n {
          assert forall e :: e in Initial(caps[..n]) ==> e.qpu != k;
          FreeOfAbsent(Initial(caps[..n]), k);
        }
      }
    }
  }

  lemma DistinctPrefix(ms: seq<Slot>, n: nat)
    requires Distinct(ms) && n <= |ms|
    ensures Distinct(ms[..n])
  {
    forall i, j | 0 <= i < j < n ensures ms[..n][i].qpu != ms[..n][j].qpu {
      assert ms[..n][i] == ms[i] && ms[..n][j] == ms[j];
    }
  }

  // ---------------------------------------------------------------------------
  // __fill_allocation and __does_not_fit.

  /** The allocation holds the free qubits of the first i slots, per QPU. */
  predicate FillInv(possible: seq<Slot>, numQpus: nat, i: nat, alloc: seq<nat>)
    requires i <= |possible|
  {
    |alloc| == numQpus
    && (forall k :: 0 <= k < numQpus ==> alloc[k] == FreeOf(possible[..i], k))
    && Sum(alloc) == Total(possible[..i])
    && (Distinct(possible) ==> NonZero(alloc) == CountNonZero(possible[..i]))
  }

  /** Adding slot i to its QPU's entry extends the allocation by one slot. */
  lemma FillStep(possible: seq<Slot>, numQpus: nat, i: nat, alloc: seq<nat>, alloc': seq<nat>)
    requires forall e :: e in possible ==> e.qpu < numQpus
    requires i < |possible| && FillInv(possible, numQpus, i, alloc)
    requires alloc' == alloc[possible[i].qpu := alloc[possible[i].qpu] + possible[i].free]
    ensures FillInv(possible, numQpus, i + 1, alloc')
  {
    var e := possible[i];
    assert e in possible;
    assert possible[..i + 1][..i] == possible[..i];
    SumUpdate(alloc, e.qpu, alloc[e.qpu] + e.free);
    if Distinct(possible) {
      forall e' | e' in possible[..i] ensures e'.qpu != e.qpu {
        var j :| 0 <= j < i && possible[..i][j] == e';
        assert possible[j] == e';
      }
      FreeOfAbsent(possible[..i], e.qpu);
      NonZeroUpdate(alloc, e.qpu, e.free);
    }
  }

  /**
   * __fill_allocation: each listed QPU's free qubits at its index, 0 at every
   * other index. The source indexes the first slot, so the list is non-empty.
   */
  method FillAllocation(possible: seq<Slot>, numQpus: nat) returns (alloc: seq<nat>)
    requires possible != []
    requires forall e :: e in possible ==> e.qpu < numQpus
    ensures |alloc| == numQpus
    ensures forall k :: 0 <= k < numQpus ==> alloc[k] == FreeOf(possible, k)
    ensures Sum(alloc) == Total(possible)
    ensures Distinct(possible) ==> NonZero(alloc) == CountNonZero(possible)
  {
    var zeros := Zeros(numQpus);
    ZerosSums(numQpus);
    assert possible[..0] == [];
    assert FillInv(possible, numQpus, 0, zeros);
    var first := possible[0];
    alloc := zeros[first.qpu := first.free];
    FillStep(possible, numQpus, 0, zeros, alloc);
    for i := 1 to |possible|
      invariant FillInv(possible, numQpus, i, alloc)
    {
      var e := possible[i];
      var alloc' := alloc[e.qpu := alloc[e.qpu] + e.free];
      FillStep(possible, numQpus, i, alloc, alloc');
      alloc := alloc';
    }
    assert possible[..|possible|] == possible;
  }

  /** Some prefix of the list holds the state, on one QPU unless distribution is allowed. */
  predicate FitsPrefix(ms: seq<Slot>, oracle: nat, allowDistributed: bool) {
    exists j :: 0 <= j < |ms| && FitsUpTo(ms, j, oracle, allowDistributed)
  }

  /** The slots up to index j hold the state, on one QPU unless distribution is allowed. */
  predicate FitsUpTo(ms: seq<Slot>, j: nat, oracle: nat, allowDistributed: bool)
    requires j < |ms|
  {
    Total(ms[..j + 1]) >= oracle && (allowDistributed || CountNonZero(ms[..j + 1]) == 1)
  }

  /** __does_not_fit on a list whose QPUs are distinct. */
  method DoesNotFit(ms: seq<Slot>, numQpus: nat, oracle: nat, allowDistributed: bool) returns (r: bool)
    requires Distinct(ms) && forall e :: e in ms ==> e.qpu < numQpus
    ensures r <==> !FitsPrefix(ms, oracle, allowDistributed)
  {
    if |ms| == 0 {
      return true;
    }
    for idx := 0 to |ms|
      invariant forall j :: 0 <= j < idx ==> !FitsUpTo(ms, j, oracle, allowDistributed)
    {
      var possible := ms[..idx + 1];
      DistinctPrefix(ms, idx + 1);
      var cur := FillAllocation(possible, numQpus);
      if Sum(cur) >= oracle && (allowDistributed || IsNotDistributed(cur)) {
        assert FitsUpTo(ms, idx, oracle, allowDistributed);
        return false;
      }
    }
    return true;
  }

  /** The state fits the list: in total, or on its first (largest) slot alone. */
  predicate Fits(ms: seq<Slot>, oracle: nat, allowDistributed: bool) {
    ms != [] && if allowDistributed then Total(ms) >= oracle else ms[0].free >= oracle
  }

  lemma {:induction false} CountNonZeroPositive(p: seq<Slot>)
    requires p != [] && p[0].free != 0
    ensures CountNonZero(p) >= 1
  {
    if |p| > 1 {
      CountNonZeroPositive(p[..|p| - 1]);
    }
  }

  /** In a sorted list with one nonzero slot, that slot is the first and holds everything. */
  lemma {:induction false} OneNonZeroSorted(p: seq<Slot>)
    requires SortedDesc(p) && p != [] && CountNonZero(p) == 1
    ensures Total(p) == p[0].free
  {
    var n := |p| - 1;
    if n > 0 {
      var q := p[..n];
      assert SortedDesc(q);
      if p[n].free != 0 {
        assert q[0].free != 0;
        CountNonZeroPositive(q);
        assert false;
      }
      OneNonZeroSorted(q);
    } else {
      assert p[..0] == [];
    }
  }

  lemma {:induction false} TotalPrefix(ms: seq<Slot>, n: nat)
    requires n <= |ms|
    ensures Total(ms[..n]) <= Total(ms)
  {
    assert ms == ms[..n] + ms[n..];
    TotalAppend(ms[..n], ms[n..]);
  }

  /**
   * On a sorted list, __does_not_fit's search over prefixes is the plain
   * condition: with distribution, the total free qubits cover the state;
   * without, the largest slot alone covers it.
   */
  lemma FitsSorted(ms: seq<Slot>, oracle: nat, allowDistributed: bool)
    requires SortedDesc(ms) && oracle > 0
    ensures FitsPrefix(ms, oracle, allowDistributed) <==> Fits(ms, oracle, allowDistributed)
  {
    if FitsPrefix(ms, oracle, allowDistributed) {
      var j :| 0 <= j < |ms| && FitsUpTo(ms, j, oracle, allowDistributed);
      if allowDistributed {
        TotalPrefix(ms, j + 1);
      } else {
        var p := ms[..j + 1];
        assert SortedDesc(p);
        OneNonZeroSorted(p);
      }
    }
    if Fits(ms, oracle, allowDistributed) {
      if allowDistributed {
        var j := |ms| - 1;
        assert ms[..j + 1] == ms;
        assert FitsUpTo(ms, j, oracle, allowDistributed);
      } else {
        var p := ms[..1];
        assert p == [ms[0]] && p[..0] == [];
        assert p[|p| - 1].free != 0;
        assert Total(p) == ms[0].free;
        assert CountNonZero(p) == CountNonZero([]) + 1;
        assert FitsUpTo(ms, 0, oracle, allowDistributed);
      }
    }
  }

  /** The state fits a round's full capacities. */
  predicate FitsAtFull(caps: seq<nat>, oracle: nat, allowDistributed: bool) {
    Fits(SortDesc(Initial(caps)), oracle, allowDistributed)
  }

  /**
   * At full capacity the state fits exactly when the QPUs hold enough qubits
   * together (with distribution) or one QPU holds enough (without).
   */
  lemma FitsAtFullCaps(caps: seq<nat>, oracle: nat, allowDistributed: bool)
    ensures FitsAtFull(caps, oracle, allowDistributed) <==>
      if allowDistributed then caps != [] && Sum(caps) >= oracle
      else exists k :: 0 <= k < |caps| && caps[k] >= oracle
  {
    var init := Initial(caps);
    var s := SortDesc(init);
    InitialFacts(caps);
    SortDescFacts(init);
    if !allowDistributed {
      if s != [] {
        assert s[0] in multiset(init);
        assert s[0] in init;
        if s[0].free >= oracle {
          assert caps[s[0].qpu] >= oracle;
        }
      }
      if exists k :: 0 <= k < |caps| && caps[k] >= oracle {
        var k :| 0 <= k < |caps| && caps[k] >= oracle;
        assert init[k] == Slot(caps[k], k);
        assert init[k] in multiset(s);
        var i :| 0 <= i < |s| && s[i] == init[k];
        assert s[0].free >= s[i].free;
      }
    }
  }

  // ---------------------------------------------------------------------------
  // One state and one round of __make_schedule.

  /** Changing one slot's free count changes the count of its QPU and no other. */
  lemma {:induction false} FreeOfUpdate(a: seq<Slot>, i: nat, v: nat, k: nat)
    requires i < |a|
    ensures FreeOf(a[i := Slot(v, a[i].qpu)], k) + (if a[i].qpu == k then a[i].free else 0)
         == FreeOf(a, k) + (if a[i].qpu == k then v else 0)
  {
    var n := |a| - 1;
    var b := a[i := Slot(v, a[i].qpu)];
    assert b[..n] == if i < n then a[..n][i := Slot(v, a[i].qpu)] else a[..n];
    if i < n {
      FreeOfUpdate(a[..n], i, v, k);
    }
  }

  /** With distinct QPUs, a slot's QPU holds exactly that slot's free qubits. */
  lemma FreeOfDistinct(ms: seq<Slot>, i: nat)
    requires Distinct(ms) && i < |ms|
    ensures FreeOf(ms, ms[i].qpu) == ms[i].free
  {
    var k := ms[i].qpu;
    assert ms == ms[..i] + [ms[i]] + ms[i + 1..];
    FreeOfAppend(ms[..i] + [ms[i]], ms[i + 1..], k);
    FreeOfAppend(ms[..i], [ms[i]], k);
    assert [ms[i]][..0] == [];
    forall e | e in ms[..i] ensures e.qpu != k {
      var x :| 0 <= x < i && ms[..i][x] == e;
      assert ms[x] == e;
    }
    forall e | e in ms[i + 1..] ensures e.qpu != k {
      var x :| 0 <= x < |ms| - i - 1 && ms[i + 1..][x] == e;
      assert ms[i + 1 + x] == e;
    }
    FreeOfAbsent(ms[..i], k);
    FreeOfAbsent(ms[i + 1..], k);
  }

  function Min(a: nat, b: nat): nat {
    if a <= b then a else b
  }

  lemma TotalStep(ms: seq<Slot>, i: nat)
    requires i < |ms|
    ensures Total(ms[..i + 1]) == Total(ms[..i]) + ms[i].free
  {
    assert ms[..i + 1][..i] == ms[..i];
  }

  function Excess(a: nat, b: nat): nat {
    if a <= b then 0 else a - b
  }

  /**
   * The working list after the greedy fill of a state of oracle qubits: in
   * list order, each slot gives all its free qubits or what is still missing
   * of the state, whichever is less.
   */
  function Drained(ms: seq<Slot>, oracle: nat): (r: seq<Slot>)
    ensures |r| == |ms|
  {
    if ms == [] then []
    else
      var t := Min(oracle, ms[0].free);
      [Slot(ms[0].free - t, ms[0].qpu)] + Drained(ms[1..], oracle - t)
  }

  /** What the greedy fill takes from QPU k. */
  function TakenBy(ms: seq<Slot>, k: nat, oracle: nat): nat {
    if ms == [] then 0
    else
      var t := Min(oracle, ms[0].free);
      (if ms[0].qpu == k then t else 0) + TakenBy(ms[1..], k, oracle - t)
  }

  /** The greedy distribution of a state over numQpus QPUs. */
  function Greedy(ms: seq<Slot>, numQpus: nat, oracle: nat): (dist: seq<nat>)
    ensures |dist| == numQpus
  {
    seq(numQpus, k requires 0 <= k < numQpus => TakenBy(ms, k, oracle))
  }

  /**
   * What the greedy fill takes from slot x, in closed form: all its free
   * qubits, or the part of the state the slots before it have not covered,
   * whichever is less.
   */
  function Taken(ms: seq<Slot>, x: nat, oracle: nat): nat
    requires x < |ms|
  {
    Min(ms[x].free, Excess(oracle, Total(ms[..x])))
  }

  lemma TotalFront(ms: seq<Slot>, x: nat)
    requires x < |ms|
    ensures Total(ms[..x + 1]) == ms[0].free + Total(ms[1..][..x])
  {
    assert ms[..x + 1] == [ms[0]] + ms[1..][..x];
    TotalAppend([ms[0]], ms[1..][..x]);
    assert [ms[0]][..0] == [];
  }

  /** Slot x of the drained list is slot x of ms less what the fill takes from it. */
  lemma {:induction false} DrainedAt(ms: seq<Slot>, oracle: nat, x: nat)
    requires x < |ms|
    ensures Drained(ms, oracle)[x] == Slot(ms[x].free - Taken(ms, x, oracle), ms[x].qpu)
    decreases x
  {
    assert ms[..0] == [];
    if x > 0 {
      var t := Min(oracle, ms[0].free);
      DrainedAt(ms[1..], oracle - t, x - 1);
      TotalFront(ms, x - 1);
    }
  }

  /** With nothing left to place, the fill leaves the list alone. */
  lemma {:induction false} DrainedNothing(ms: seq<Slot>)
    ensures Drained(ms, 0) == ms
    decreases |ms|
  {
    if ms != [] {
      DrainedNothing(ms[1..]);
      assert ms == [ms[0]] + ms[1..];
    }
  }

  lemma FreeOfOne(e: Slot, k: nat)
    ensures FreeOf([e], k) == if e.qpu == k then e.free else 0
  {
    assert [e][..0] == [];
  }

  /** The greedy fill moves qubits from the list to the distribution and loses none. */
  lemma {:induction false} FreeOfDrained(ms: seq<Slot>, k: nat, oracle: nat)
    ensures FreeOf(Drained(ms, oracle), k) + TakenBy(ms, k, oracle) == FreeOf(ms, k)
    decreases |ms|
  {
    if ms != [] {
      var t := Min(oracle, ms[0].free);
      var e := Slot(ms[0].free - t, ms[0].qpu);
      FreeOfDrained(ms[1..], k, oracle - t);
      FreeOfAppend([e], Drained(ms[1..], oracle - t), k);
      assert ms == [ms[0]] + ms[1..];
      FreeOfAppend([ms[0]], ms[1..], k);
      FreeOfOne(e, k);
      FreeOfOne(ms[0], k);
    }
  }

  /**
   * The greedy fill in list order: every slot whose prefix does not go past
   * the state is emptied, every slot after the state is complete is left
   * alone, and the slot where it completes keeps what it does not need.
   */
  lemma GreedyFillShape(ms: seq<Slot>, oracle: nat)
    ensures forall x :: 0 <= x < |ms| && Total(ms[..x + 1]) <= oracle ==> Drained(ms, oracle)[x].free == 0
    ensures forall x :: 0 <= x < |ms| && oracle <= Total(ms[..x]) ==> Drained(ms, oracle)[x] == ms[x]
    ensures forall x :: 0 <= x < |ms| && Total(ms[..x]) < oracle < Total(ms[..x + 1])
                        ==> Drained(ms, oracle)[x].free == Total(ms[..x + 1]) - oracle
    ensures forall x :: 0 <= x < |ms| ==> Drained(ms, oracle)[x].qpu == ms[x].qpu
  {
    forall x | 0 <= x < |ms|
      ensures Drained(ms, oracle)[x] == Slot(ms[x].free - Taken(ms, x, oracle), ms[x].qpu)
      ensures Total(ms[..x + 1]) == Total(ms[..x]) + ms[x].free
    {
      DrainedAt(ms, oracle, x);
      TotalStep(ms, x);
    }
  }

  /**
   * The three-QPU case with free counts 3, 2, 2 and a state of 4 qubits: the
   * first QPU is emptied and the second gives the last qubit.
   */
  lemma GreedyFirstSlotsFirst()
    ensures Drained([Slot(3, 0), Slot(2, 1), Slot(2, 2)], 4) == [Slot(0, 0), Slot(1, 1), Slot(2, 2)]
    ensures Greedy([Slot(3, 0), Slot(2, 1), Slot(2, 2)], 3, 4) == [3, 1, 0]
  {
    var ms := [Slot(3, 0), Slot(2, 1), Slot(2, 2)];
    assert ms[1..] == [Slot(2, 1), Slot(2, 2)] && ms[1..][1..] == [Slot(2, 2)] && ms[1..][1..][1..] == [];
    DrainedNothing([Slot(2, 2)]);
    var g := Greedy(ms, 3, 4);
    assert g[0] == 3 && g[1] == 1 && g[2] == 0;
  }

  /** What dist took from each QPU is what the slots after lost against the slots ms. */
  predicate Balanced(dist: seq<nat>, after: seq<Slot>, ms: seq<Slot>, numQpus: nat)
    requires |dist| == numQpus
  {
    forall k :: 0 <= k < numQpus ==> dist[k] + FreeOf(after, k) == FreeOf(ms, k)
  }

  /** The slots of after are those of ms, in order, with possibly other free counts. */
  predicate SameQpus(after: seq<Slot>, ms: seq<Slot>) {
    |after| == |ms| && forall x :: 0 <= x < |ms| ==> after[x].qpu == ms[x].qpu
  }

  /** Moving t qubits from slot idx to the distribution keeps the balance. */
  lemma BalancedStep(dist: seq<nat>, after: seq<Slot>, ms: seq<Slot>, numQpus: nat, idx: nat, t: nat)
    requires |dist| == numQpus && Balanced(dist, after, ms, numQpus)
    requires idx < |after| && after[idx].qpu < numQpus && t <= after[idx].free
    ensures Balanced(dist[after[idx].qpu := dist[after[idx].qpu] + t],
                     after[idx := Slot(after[idx].free - t, after[idx].qpu)], ms, numQpus)
  {
    forall k | 0 <= k < numQpus {
      FreeOfUpdate(after, idx, after[idx].free - t, k);
    }
  }

  /** In the greedy fill, the slot being drained has the free count cur records for its QPU. */
  lemma DrainSlot(ms: seq<Slot>, j: nat, cur: seq<nat>, numQpus: nat, after: seq<Slot>, idx: nat)
    requires Distinct(ms) && forall e :: e in ms ==> e.qpu < numQpus
    requires j < |ms| && |cur| == numQpus && forall k :: 0 <= k < numQpus ==> cur[k] == FreeOf(ms[..j + 1], k)
    requires idx <= j && |after| == |ms| && after[idx..] == ms[idx..]
    ensures after[idx] == ms[idx] && after[idx].qpu < numQpus && cur[after[idx].qpu] == after[idx].free
  {
    DistinctPrefix(ms, j + 1);
    assert after[idx] == after[idx..][0] == ms[idx..][0];
    assert ms[idx] in ms;
    assert ms[idx] == ms[..j + 1][idx];
    FreeOfDistinct(ms[..j + 1], idx);
  }

  /** Lowering slot idx keeps the QPUs and the untouched tail. */
  lemma DrainFrame(ms: seq<Slot>, j: nat, after: seq<Slot>, idx: nat, v: nat)
    requires j < |ms| && idx <= j && SameQpus(after, ms) && after[idx..] == ms[idx..]
    ensures SameQpus(after[idx := Slot(v, after[idx].qpu)], ms)
    ensures after[idx := Slot(v, after[idx].qpu)][idx + 1..] == ms[idx + 1..]
  {
    var a := after[idx := Slot(v, after[idx].qpu)];
    assert a[idx + 1..] == after[idx + 1..] == after[idx..][1..];
  }

  /**
   * The state of the greedy fill after idx slots: the slots before idx are
   * those of the greedy fill, and what it does with the rest is the fill of
   * the remaining qubits; the rest of the list is untouched, dist holds what
   * the slots lost, and remaining qubits of the state are still to be placed.
   */
  predicate DrainInv(ms: seq<Slot>, j: nat, numQpus: nat, oracle: nat,
                     after: seq<Slot>, dist: seq<nat>, remaining: nat, idx: nat)
  {
    j < |ms| && idx <= j + 1 && SameQpus(after, ms)
    && after[idx..] == ms[idx..]
    && |dist| == numQpus && Sum(dist) + remaining == oracle
    && Balanced(dist, after, ms, numQpus)
    && (remaining == 0 || Total(ms[..idx]) + remaining == oracle)
    && Drained(ms, oracle) == after[..idx] + Drained(ms[idx..], remaining)
  }

  /** Slot idx gives what the greedy fill takes from it. */
  lemma GreedyStep(ms: seq<Slot>, oracle: nat, after: seq<Slot>, remaining: nat, idx: nat, t: nat)
    requires idx < |ms| == |after| && Drained(ms, oracle) == after[..idx] + Drained(ms[idx..], remaining)
    requires t == Min(remaining, ms[idx].free)
    ensures Drained(ms, oracle)
         == after[idx := Slot(ms[idx].free - t, ms[idx].qpu)][..idx + 1] + Drained(ms[idx + 1..], remaining - t)
  {
    assert ms[idx..][1..] == ms[idx + 1..];
    var a := after[idx := Slot(ms[idx].free - t, ms[idx].qpu)];
    assert a[..idx + 1] == after[..idx] + [Slot(ms[idx].free - t, ms[idx].qpu)];
  }

  /** Taking what slot idx can give keeps the fill's state consistent. */
  lemma DrainStep(ms: seq<Slot>, j: nat, numQpus: nat, oracle: nat,
                  after: seq<Slot>, dist: seq<nat>, remaining: nat, idx: nat, t: nat,
                  after': seq<Slot>, dist': seq<nat>)
    requires DrainInv(ms, j, numQpus, oracle, after, dist, remaining, idx)
    requires idx <= j && after[idx].qpu < numQpus && t == Min(remaining, after[idx].free)
    requires after' == after[idx := Slot(after[idx].free - t, after[idx].qpu)]
    requires dist' == dist[after[idx].qpu := dist[after[idx].qpu] + t]
    ensures DrainInv(ms, j, numQpus, oracle, after', dist', remaining - t, idx + 1)
  {
    var e := after[idx];
    assert e == ms[idx] by { assert after[idx..][0] == ms[idx..][0]; }
    DrainFrame(ms, j, after, idx, e.free - t);
    SumAdd(dist, e.qpu, t);
    BalancedStep(dist, after, ms, numQpus, idx, t);
    TotalStep(ms, idx);
    GreedyStep(ms, oracle, after, remaining, idx, t);
  }

  /** Before the first slot, nothing is taken and the whole state remains. */
  lemma DrainStart(ms: seq<Slot>, j: nat, numQpus: nat, oracle: nat)
    requires j < |ms|
    ensures DrainInv(ms, j, numQpus, oracle, ms, Zeros(numQpus), oracle, 0)
  {
    ZerosSums(numQpus);
    assert ms[..0] == [] && ms[0..] == ms;
  }

  /**
   * Once the state is complete, the slots not yet reached are those the
   * greedy fill leaves alone: the list and the distribution are the greedy ones.
   */
  lemma DrainDone(ms: seq<Slot>, j: nat, numQpus: nat, oracle: nat,
                  after: seq<Slot>, dist: seq<nat>, remaining: nat, idx: nat)
    requires DrainInv(ms, j, numQpus, oracle, after, dist, remaining, idx)
    requires Total(ms[..j + 1]) >= oracle && (idx == j + 1 || remaining == 0)
    ensures SameQpus(after, ms)
    ensures |dist| == numQpus && Sum(dist) == oracle
    ensures Balanced(dist, after, ms, numQpus)
    ensures after == Drained(ms, oracle)
    ensures dist == Greedy(ms, numQpus, oracle)
    ensures after[j + 1..] == ms[j + 1..]
  {
    assert remaining == 0;
    DrainedNothing(ms[idx..]);
    assert after == after[..idx] + after[idx..];
    assert after[j + 1..] == after[idx..][j + 1 - idx..];
    forall k | 0 <= k < numQpus ensures dist[k] == Greedy(ms, numQpus, oracle)[k] {
      assert dist[k] + FreeOf(after, k) == FreeOf(ms, k);
      FreeOfDrained(ms, k, oracle);
    }
  }

  /**
   * The greedy fill of one state over the prefix ms[..j+1], whose allocation
   * cur holds the state: the slots are drained in order, each giving what it
   * has until the state is complete; their free counts are lowered in place.
   */
  method Drain(ms: seq<Slot>, j: nat, cur: seq<nat>, numQpus: nat, oracle: nat)
    returns (after: seq<Slot>, dist: seq<nat>)
    requires Distinct(ms) && forall e :: e in ms ==> e.qpu < numQpus
    requires j < |ms| && Total(ms[..j + 1]) >= oracle
    requires |cur| == numQpus && forall k :: 0 <= k < numQpus ==> cur[k] == FreeOf(ms[..j + 1], k)
    ensures SameQpus(after, ms)
    ensures |dist| == numQpus && Sum(dist) == oracle
    ensures Balanced(dist, after, ms, numQpus)
    ensures after[j + 1..] == ms[j + 1..]
    ensures after == Drained(ms, oracle) && dist == Greedy(ms, numQpus, oracle)
  {
    dist := Zeros(numQpus);
    after := ms;
    var remaining := oracle;
    var idx := 0;
    DrainStart(ms, j, numQpus, oracle);
    while idx <= j && remaining > 0
      invariant DrainInv(ms, j, numQpus, oracle, after, dist, remaining, idx)
      decreases j + 1 - idx
    {
      DrainSlot(ms, j, cur, numQpus, after, idx);
      var e := after[idx];
      var t := Min(remaining, cur[e.qpu]);
      var after' := after[idx := Slot(e.free - t, e.qpu)];
      var dist' := dist[e.qpu := dist[e.qpu] + t];
      DrainStep(ms, j, numQpus, oracle, after, dist, remaining, idx, t, after', dist');
      after, dist, remaining, idx := after', dist', remaining - t, idx + 1;
    }
    DrainDone(ms, j, numQpus, oracle, after, dist, remaining, idx);
  }

  /** Draining only the first slot leaves every other QPU out of the distribution. */
  lemma FirstSlotOnly(ms: seq<Slot>, numQpus: nat, oracle: nat, after: seq<Slot>, dist: seq<nat>)
    requires ms != [] && ms[0].qpu < numQpus && oracle > 0
    requires SameQpus(after, ms) && after[1..] == ms[1..]
    requires |dist| == numQpus && Sum(dist) == oracle && Balanced(dist, after, ms, numQpus)
    ensures OnlyNonZero(dist, ms[0].qpu)
  {
    var q := ms[0].qpu;
    assert after == ms[0 := Slot(after[0].free, q)] by {
      forall x | 0 <= x < |ms| ensures after[x] == ms[0 := Slot(after[0].free, q)][x] {
        if x > 0 {
          assert after[x] == after[1..][x - 1];
        }
      }
    }
    forall k | 0 <= k < numQpus && k != q ensures dist[k] == 0 {
      FreeOfUpdate(ms, 0, after[0].free, k);
    }
    assert dist == Zeros(numQpus)[q := dist[q]];
    SumUpdate(Zeros(numQpus), q, dist[q]);
    ZerosSums(numQpus);
  }

  /**
   * The allocation of one state (the loop over j in __make_schedule): the
   * shortest prefix of the sorted list that holds the state is found and
   * drained. The caller has established that the whole list holds the state.
   */
  method PlaceState(ms: seq<Slot>, numQpus: nat, oracle: nat) returns (after: seq<Slot>, dist: seq<nat>)
    requires Distinct(ms) && forall e :: e in ms ==> e.qpu < numQpus
    requires oracle > 0 && Total(ms) >= oracle
    ensures SameQpus(after, ms)
    ensures |dist| == numQpus && Sum(dist) == oracle
    ensures Balanced(dist, after, ms, numQpus)
    ensures ms[0].free >= oracle ==> OnlyNonZero(dist, ms[0].qpu)
    ensures after == Drained(ms, oracle) && dist == Greedy(ms, numQpus, oracle)
    ensures forall x :: 0 <= x < |ms| && Total(ms[..x + 1]) <= oracle ==> after[x].free == 0
    ensures forall x :: 0 <= x < |ms| && oracle <= Total(ms[..x]) ==> after[x] == ms[x]
  {
    var j := 0;
    while true
      invariant 0 <= j < |ms|
      invariant ms[0].free >= oracle ==> j == 0
      decreases |ms| - j
    {
      var possible := ms[..j + 1];
      DistinctPrefix(ms, j + 1);
      var cur := FillAllocation(possible, numQpus);
      if Sum(cur) >= oracle {
        after, dist := Drain(ms, j, cur, numQpus, oracle);
        if ms[0].free >= oracle {
          assert ms[0] in ms;
          FirstSlotOnly(ms, numQpus, oracle, after, dist);
        }
        GreedyFillShape(ms, oracle);
        return;
      }
      if j == 0 {
        assert possible == [ms[0]] && possible[..0] == [];
      }
      assert ms[..j + 1] != ms;
      j := j + 1;
    }
  }

  // ---------------------------------------------------------------------------
  // One round of __make_schedule.

  /** The qubits that a round's entries take from QPU k. */
  function Used(entries: seq<Entry>, k: nat): nat {
    if entries == [] then 0
    else
      var d := entries[|entries| - 1].1;
      Used(entries[..|entries| - 1], k) + (if k < |d| then d[k] else 0)
  }

  /** A scheduled distribution: one count per QPU, adding up to the state's size, on one QPU unless distribution is allowed. */
  predicate ValidEntry(e: Entry, numQpus: nat, oracle: nat, allowDistributed: bool) {
    |e.1| == numQpus && Sum(e.1) == oracle && (allowDistributed || IsNotDistributed(e.1))
  }

  /** The state indices of a round's entries rise strictly. */
  predicate Increasing(entries: seq<Entry>) {
    forall a, b :: 0 <= a < b < |entries| ==> entries[a].0 < entries[b].0
  }

  /** A round of n states: valid entries for states below n, in order, within every QPU's capacity. */
  predicate ValidRound(entries: seq<Entry>, n: nat, caps: seq<nat>, oracle: nat, allowDistributed: bool) {
    (forall x :: 0 <= x < |entries| ==> ValidEntry(entries[x], |caps|, oracle, allowDistributed) && entries[x].0 < n)
    && Increasing(entries)
    && forall k :: 0 <= k < |caps| ==> Used(entries, k) <= caps[k]
  }

  lemma UsedAppend(entries: seq<Entry>, e: Entry, k: nat)
    ensures Used(entries + [e], k) == Used(entries, k) + (if k < |e.1| then e.1[k] else 0)
  {
    assert (entries + [e])[..|entries|] == entries;
  }

  lemma SortDescMembers(ms: seq<Slot>)
    ensures forall e :: e in SortDesc(ms) <==> e in ms
  {
    SortDescFacts(ms);
    forall e ensures e in SortDesc(ms) <==> e in ms {
      assert e in SortDesc(ms) <==> e in multiset(SortDesc(ms));
      assert e in ms <==> e in multiset(ms);
    }
  }

  /** A list with the QPUs of a list with distinct, bounded QPUs has them too. */
  lemma SameQpusFacts(after: seq<Slot>, ms: seq<Slot>, numQpus: nat)
    requires SameQpus(after, ms) && Distinct(ms) && forall e :: e in ms ==> e.qpu < numQpus
    ensures Distinct(after) && forall e :: e in after ==> e.qpu < numQpus
  {
    forall e | e in after ensures e.qpu < numQpus {
      var x :| 0 <= x < |after| && after[x] == e;
      assert ms[x] in ms;
    }
  }

  lemma TotalAtLeastFirst(ms: seq<Slot>)
    requires ms != []
    ensures Total(ms) >= ms[0].free
  {
    TotalPrefix(ms, 1);
    assert ms[..1] == [ms[0]] && ms[..1][..0] == [];
  }

  /**
   * The state of a round after its first i states: the working list ms has
   * distinct QPUs, the entries plus the free qubits of ms give back every
   * capacity, and every state so far has an entry or was postponed.
   */
  predicate RoundInv(caps: seq<nat>, oracle: nat, allowDistributed: bool, i: nat,
                     ms: seq<Slot>, entries: seq<Entry>, couldNotFit: nat)
  {
    Distinct(ms) && (forall e :: e in ms ==> e.qpu < |caps|)
    && (forall k :: 0 <= k < |caps| ==> Used(entries, k) + FreeOf(ms, k) == caps[k])
    && |entries| + couldNotFit == i
    && (forall x :: 0 <= x < |entries| ==> ValidEntry(entries[x], |caps|, oracle, allowDistributed) && entries[x].0 < i)
    && Increasing(entries)
  }

  /** The sorted working list keeps distinct, bounded QPUs and is non-increasing. */
  lemma SortedList(ms: seq<Slot>, numQpus: nat)
    requires Distinct(ms) && forall e :: e in ms ==> e.qpu < numQpus
    ensures Distinct(SortDesc(ms)) && SortedDesc(SortDesc(ms))
    ensures forall e :: e in SortDesc(ms) ==> e.qpu < numQpus
  {
    SortDescFacts(ms);
    SortDescDistinct(ms);
    SortDescMembers(ms);
  }

  /** Postponing state i keeps the round's accounting, the sorted list standing for ms. */
  lemma RoundSkip(caps: seq<nat>, oracle: nat, allowDistributed: bool, i: nat,
                  ms: seq<Slot>, entries: seq<Entry>, couldNotFit: nat)
    requires RoundInv(caps, oracle, allowDistributed, i, ms, entries, couldNotFit)
    ensures RoundInv(caps, oracle, allowDistributed, i + 1, SortDesc(ms), entries, couldNotFit + 1)
  {
    SortDescFacts(ms);
    SortDescDistinct(ms);
    SortDescMembers(ms);
  }

  /** Placing state i on the sorted list keeps the round's accounting. */
  lemma RoundPlace(caps: seq<nat>, oracle: nat, allowDistributed: bool, i: nat,
                   ms: seq<Slot>, entries: seq<Entry>, couldNotFit: nat,
                   after: seq<Slot>, dist: seq<nat>, ms': seq<Slot>, entries': seq<Entry>)
    requires RoundInv(caps, oracle, allowDistributed, i, ms, entries, couldNotFit)
    requires SameQpus(after, SortDesc(ms)) && |dist| == |caps| && Balanced(dist, after, SortDesc(ms), |caps|)
    requires ValidEntry((i, dist), |caps|, oracle, allowDistributed)
    requires ms' == KeepFree(after) && entries' == entries + [(i, dist)]
    ensures RoundInv(caps, oracle, allowDistributed, i + 1, ms', entries', couldNotFit)
  {
    var sorted := SortDesc(ms);
    SortDescFacts(ms);
    SortDescDistinct(ms);
    SortDescMembers(ms);
    SameQpusFacts(after, sorted, |caps|);
    KeepFreeFacts(after);
    forall k | 0 <= k < |caps| ensures Used(entries', k) + FreeOf(ms', k) == caps[k] {
      UsedAppend(entries, (i, dist), k);
    }
    forall x | 0 <= x < |entries'| ensures ValidEntry(entries'[x], |caps|, oracle, allowDistributed) && entries'[x].0 < i + 1 {
      if x < |entries| {
        assert entries'[x] == entries[x];
      }
    }
  }

  /** The working list, the entries and the postponed count of a round in progress. */
  datatype RoundState = RoundState(ms: seq<Slot>, entries: seq<Entry>, couldNotFit: nat)

  /**
   * State i of a round: it is placed by the greedy fill of the sorted working
   * list when it fits, and postponed (the sorted list kept) when it does not.
   */
  function RoundStep(caps: seq<nat>, oracle: nat, allowDistributed: bool, i: nat, st: RoundState): RoundState {
    var sorted := SortDesc(st.ms);
    if Fits(sorted, oracle, allowDistributed) then
      RoundState(KeepFree(Drained(sorted, oracle)), st.entries + [(i, Greedy(sorted, |caps|, oracle))], st.couldNotFit)
    else
      RoundState(sorted, st.entries, st.couldNotFit + 1)
  }

  /**
   * The body of __make_schedule's loop for state i: the working list is
   * sorted; when the state fits it, the state is placed and the emptied slots
   * dropped, otherwise it is postponed (couldNotFit grows).
   */
  method PlaceOrPostpone(caps: seq<nat>, oracle: nat, allowDistributed: bool, i: nat, st: RoundState)
    returns (fits: bool, next: RoundState)
    requires oracle > 0
    requires RoundInv(caps, oracle, allowDistributed, i, st.ms, st.entries, st.couldNotFit)
    ensures fits <==> Fits(SortDesc(st.ms), oracle, allowDistributed)
    ensures RoundInv(caps, oracle, allowDistributed, i + 1, next.ms, next.entries, next.couldNotFit)
    ensures next == RoundStep(caps, oracle, allowDistributed, i, st)
  {
    var sorted := SortDesc(st.ms);
    SortedList(st.ms, |caps|);
    var dnf := true;
    if |sorted| != 0 {
      dnf := DoesNotFit(sorted, |caps|, oracle, allowDistributed);
    }
    FitsSorted(sorted, oracle, allowDistributed);
    if dnf {
      RoundSkip(caps, oracle, allowDistributed, i, st.ms, st.entries, st.couldNotFit);
      return false, RoundState(sorted, st.entries, st.couldNotFit + 1);
    }
    if !allowDistributed {
      TotalAtLeastFirst(sorted);
    }
    var after, dist := PlaceState(sorted, |caps|, oracle);
    if !allowDistributed {
      OnlyNonZeroCounts(dist, sorted[0].qpu);
    }
    var e: Entry := (i, dist);
    var ms' := KeepFree(after);
    var entries' := st.entries + [e];
    RoundPlace(caps, oracle, allowDistributed, i, st.ms, st.entries, st.couldNotFit, after, dist, ms', entries');
    fits, next := true, RoundState(ms', entries', st.couldNotFit);
  }

  /** States 0..n-1 of a round, each placed or postponed in turn, from the full QPUs. */
  function GreedyRound(caps: seq<nat>, oracle: nat, allowDistributed: bool, n: nat): RoundState {
    if n == 0 then RoundState(Initial(caps), [], 0)
    else RoundStep(caps, oracle, allowDistributed, n - 1, GreedyRound(caps, oracle, allowDistributed, n - 1))
  }

  /** st is the state of the round after its first i states. */
  predicate AtStep(caps: seq<nat>, oracle: nat, allowDistributed: bool, i: nat, st: RoundState) {
    st == GreedyRound(caps, oracle, allowDistributed, i)
  }

  /** The step after the first i states of a round gives the state after i + 1. */
  lemma RoundAdvance(caps: seq<nat>, oracle: nat, allowDistributed: bool, i: nat, st: RoundState, next: RoundState)
    requires AtStep(caps, oracle, allowDistributed, i, st)
    requires next == RoundStep(caps, oracle, allowDistributed, i, st)
    ensures AtStep(caps, oracle, allowDistributed, i + 1, next)
  {
  }

  /**
   * Every state is placed or postponed, and when the first state fits the
   * full QPUs it is placed, so fewer than n states move to the next round.
   */
  lemma {:induction false} GreedyRoundPostpones(caps: seq<nat>, oracle: nat, allowDistributed: bool, n: nat)
    ensures |GreedyRound(caps, oracle, allowDistributed, n).entries| + GreedyRound(caps, oracle, allowDistributed, n).couldNotFit == n
    ensures n > 0 && FitsAtFull(caps, oracle, allowDistributed) ==> GreedyRound(caps, oracle, allowDistributed, n).couldNotFit < n
  {
    if n > 0 {
      GreedyRoundPostpones(caps, oracle, allowDistributed, n - 1);
    }
  }

  /**
   * The two-state case: QPU capacity 4, states of 2 qubits, distribution
   * allowed. Both states go into the round, each taking 2 qubits of QPU 0.
   */
  lemma GreedyRoundFillsFirst()
    ensures GreedyRound([4], 2, true, 2) == RoundState([], [(0, [2]), (1, [2])], 0)
  {
    var one := [Slot(4, 0)];
    assert Initial([4]) == one;
    assert SortDesc(one) == one;
    assert one[..0] == [] && Total(one) == 4;
    DrainedNothing([]);
    assert Drained(one, 2) == [Slot(2, 0)];
    assert Greedy(one, 1, 2) == [2];
    var half := [Slot(2, 0)];
    assert KeepFree([Slot(2, 0)]) == half by { assert half[..0] == []; }
    assert GreedyRound([4], 2, true, 1) == RoundState(half, [(0, [2])], 0);
    assert SortDesc(half) == half;
    assert half[..0] == [] && Total(half) == 2;
    assert Drained(half, 2) == [Slot(0, 0)];
    assert Greedy(half, 1, 2) == [2];
    assert KeepFree([Slot(0, 0)]) == [] by { assert [Slot(0, 0)][..0] == []; }
  }

  /**
   * One round of __make_schedule for n states on QPUs of capacities caps.
   * Each state is placed greedily on the QPUs with the most free qubits, or
   * postponed when it does not fit what is left. In the first round, a first
   * state that does not fit the full QPUs ends the schedule (stop).
   */
  method ScheduleRound(caps: seq<nat>, n: nat, oracle: nat, allowDistributed: bool, firstRound: bool)
    returns (stop: bool, entries: seq<Entry>, couldNotFit: nat)
    requires oracle > 0
    ensures stop <==> firstRound && n > 0 && !FitsAtFull(caps, oracle, allowDistributed)
    ensures stop ==> entries == [] && couldNotFit == 0
    ensures !stop ==> |entries| + couldNotFit == n
    ensures !stop ==> entries == GreedyRound(caps, oracle, allowDistributed, n).entries
                      && couldNotFit == GreedyRound(caps, oracle, allowDistributed, n).couldNotFit
    ensures ValidRound(entries, n, caps, oracle, allowDistributed)
    ensures n > 0 && FitsAtFull(caps, oracle, allowDistributed) ==> couldNotFit < n
  {
    InitialFacts(caps);
    var st := RoundState(Initial(caps), [], 0);
    for i := 0 to n
      invariant RoundInv(caps, oracle, allowDistributed, i, st.ms, st.entries, st.couldNotFit)
      invariant AtStep(caps, oracle, allowDistributed, i, st)
      invariant firstRound && i > 0 ==> FitsAtFull(caps, oracle, allowDistributed)
    {
      var fits, next := PlaceOrPostpone(caps, oracle, allowDistributed, i, st);
      if !fits && firstRound && i == 0 {
        return true, [], 0;
      }
      RoundAdvance(caps, oracle, allowDistributed, i, st, next);
      st := next;
    }
    GreedyRoundPostpones(caps, oracle, allowDistributed, n);
    stop, entries, couldNotFit := false, st.entries, st.couldNotFit;
    forall k | 0 <= k < |caps| ensures Used(entries, k) <= caps[k] {
    }
  }




  // ---------------------------------------------------------------------------
  // The schedule object.

  /** Round r of a and b is the same: both lack it or both hold the same entries. */
  predicate Agrees(a: map<nat, seq<Entry>>, b: map<nat, seq<Entry>>, r: nat) {
    (r in a <==> r in b) && (r in a ==> a[r] == b[r])
  }

  /** The states scheduled in rounds from to last. */
  function ScheduledCount(schedule: map<nat, seq<Entry>>, from: nat, last: int): nat
    decreases last - from
  {
    if last < from then 0
    else (if from in schedule then |schedule[from]| else 0) + ScheduledCount(schedule, from + 1, last)
  }

  lemma ValidRoundBelow(entries: seq<Entry>, n: nat, m: nat, caps: seq<nat>, oracle: nat, allowDistributed: bool)
    requires ValidRound(entries, n, caps, oracle, allowDistributed) && n <= m
    ensures ValidRound(entries, m, caps, oracle, allowDistributed)
  {
  }

  /** Rounds valid for n states are valid for m >= n states. */
  lemma ValidRoundsBelow(schedule: map<nat, seq<Entry>>, from: nat, last: int, n: nat, m: nat,
                         caps: seq<nat>, oracle: nat, allowDistributed: bool)
    requires forall r: nat :: from <= r <= last ==> r in schedule && ValidRound(schedule[r], n, caps, oracle, allowDistributed)
    requires n <= m
    ensures forall r: nat :: from <= r <= last ==> r in schedule && ValidRound(schedule[r], m, caps, oracle, allowDistributed)
  {
    forall r: nat | from <= r <= last
      ensures r in schedule && ValidRound(schedule[r], m, caps, oracle, allowDistributed)
    {
      ValidRoundBelow(schedule[r], n, m, caps, oracle, allowDistributed);
    }
  }

  /**
   * A round of n states scheduled at round, followed by rounds round + 1..last
   * that schedule the cnf postponed states, schedules all n states.
   */
  lemma ExtendSchedule(before: map<nat, seq<Entry>>, mid: map<nat, seq<Entry>>, after: map<nat, seq<Entry>>,
                       round: nat, last: int, n: nat, cnf: nat, entries: seq<Entry>,
                       caps: seq<nat>, oracle: nat, allowDistributed: bool)
    requires mid == before[round := entries]
    requires ValidRound(entries, n, caps, oracle, allowDistributed) && |entries| + cnf == n
    requires last >= round
    requires forall r: nat :: r < round + 1 || r > last ==> Agrees(after, mid, r)
    requires forall r: nat :: round + 1 <= r <= last ==> r in after && ValidRound(after[r], cnf, caps, oracle, allowDistributed)
    requires ScheduledCount(after, round + 1, last) == cnf
    ensures forall r: nat :: r < round || r > last ==> Agrees(after, before, r)
    ensures forall r: nat :: round <= r <= last ==> r in after && ValidRound(after[r], n, caps, oracle, allowDistributed)
    ensures ScheduledCount(after, round, last) == n
  {
    assert Agrees(after, mid, round);
    forall r: nat | r < round || r > last ensures Agrees(after, before, r) {
      assert Agrees(after, mid, r) && Agrees(mid, before, r);
    }
    ValidRoundsBelow(after, round + 1, last, cnf, n, caps, oracle, allowDistributed);
  }

  /**
   * The schedule __make_schedule(n, round) leaves, starting from before: it is
   * unchanged when there is nothing to place, gets an empty round 1 when the
   * first state does not fit the full QPUs, and otherwise gets this round's
   * greedy entries and then the rounds of the states the round postpones.
   */
  function Scheduled(before: map<nat, seq<Entry>>, caps: seq<nat>, oracle: nat, allowDistributed: bool,
                     n: nat, round: nat): map<nat, seq<Entry>>
    requires round >= 1
    requires round > 1 && n > 0 && oracle > 0 ==> FitsAtFull(caps, oracle, allowDistributed)
    decreases n
  {
    if n == 0 || oracle == 0 then before
    else if round == 1 && !FitsAtFull(caps, oracle, allowDistributed) then before[1 := []]
    else
      GreedyRoundPostpones(caps, oracle, allowDistributed, n);
      var st := GreedyRound(caps, oracle, allowDistributed, n);
      Scheduled(before[round := st.entries], caps, oracle, allowDistributed, st.couldNotFit, round + 1)
  }

  /**
   * QPU capacity 4, two states of 2 qubits, distribution allowed: both go
   * into round 1 on QPU 0, and there is no round 2.
   */
  lemma ScheduleFillsFirst()
    ensures Scheduled(map[], [4], 2, true, 2, 1) == map[1 := [(0, [2]), (1, [2])]]
  {
    GreedyRoundFillsFirst();
    assert FitsAtFull([4], 2, true) by {
      assert Initial([4]) == [Slot(4, 0)];
      assert SortDesc([Slot(4, 0)]) == [Slot(4, 0)];
      assert [Slot(4, 0)][..0] == [] && Total([Slot(4, 0)]) == 4;
    }
  }
  /**
   * QPU capacity 3, two states of 2 qubits, distribution allowed: state 0
   * leaves 1 free qubit, too few for state 1, which is postponed to round 2
   * and placed there (as index 0 of that round) on the full QPU.
   */
  lemma SchedulePostpones()
    ensures Scheduled(map[], [3], 2, true, 2, 1) == map[1 := [(0, [2])], 2 := [(0, [2])]]
  {
    var full := [Slot(3, 0)];
    assert Initial([3]) == full;
    assert SortDesc(full) == full;
    assert full[..0] == [] && Total(full) == 3;
    DrainedNothing([]);
    assert Drained(full, 2) == [Slot(1, 0)];
    assert Greedy(full, 1, 2) == [2];
    var one := [Slot(1, 0)];
    assert KeepFree([Slot(1, 0)]) == one by { assert one[..0] == []; }
    assert GreedyRound([3], 2, true, 1) == RoundState(one, [(0, [2])], 0);
    assert SortDesc(one) == one;
    assert one[..0] == [] && Total(one) == 1;
    assert GreedyRound([3], 2, true, 2) == RoundState(one, [(0, [2])], 1);
    assert FitsAtFull([3], 2, true);
  }


  /**
   * GreedySchedule: numLikelihoods states of oracleSize qubits each, on QPUs
   * with qubitsPerQpu qubits, scheduled round by round into schedule, which
   * maps a round number to the (state index, distribution) pairs of that round.
   */
  class GreedySchedule {
    const numLikelihoods: nat
    const qubitsPerQpu: seq<nat>
    const oracleSize: nat
    const allowDistributed: bool
    var schedule: map<nat, seq<Entry>>

    constructor(numLikelihoods: nat, qubitsPerQpu: seq<nat>, oracleSize: nat, allowDistributed: bool)
      ensures this.numLikelihoods == numLikelihoods && this.qubitsPerQpu == qubitsPerQpu
      ensures this.oracleSize == oracleSize && this.allowDistributed == allowDistributed
      ensures schedule == map[]
    {
      this.numLikelihoods := numLikelihoods;
      this.qubitsPerQpu := qubitsPerQpu;
      this.oracleSize := oracleSize;
      this.allowDistributed := allowDistributed;
      schedule := map[];
    }

    /** The first state fits the QPUs at full capacity. */
    predicate Feasible() {
      FitsAtFull(qubitsPerQpu, oracleSize, allowDistributed)
    }

    /**
     * __make_schedule(n, round): schedules rounds round..last. Rounds before
     * and after are kept; each scheduled round is valid; when the problem is
     * feasible (or nothing is to be scheduled) the rounds hold exactly n states.
     * An infeasible first round leaves round 1 empty and schedules nothing more.
     */
    method MakeScheduleFrom(n: nat, round: nat) returns (ghost last: int)
      modifies this
      requires round >= 1
      requires round > 1 && n > 0 && oracleSize > 0 ==> Feasible()
      ensures last >= round - 1
      ensures forall r: nat :: r < round || r > last ==> Agrees(schedule, old(schedule), r)
      ensures forall r: nat :: round <= r <= last ==>
        r in schedule && ValidRound(schedule[r], n, qubitsPerQpu, oracleSize, allowDistributed)
      ensures n == 0 || oracleSize == 0 ==> last == round - 1
      ensures round == 1 && n > 0 && oracleSize > 0 && !Feasible() ==> last == 1 && schedule[1] == []
      ensures oracleSize > 0 && (n == 0 || Feasible()) ==> ScheduledCount(schedule, round, last) == n
      ensures schedule == Scheduled(old(schedule), qubitsPerQpu, oracleSize, allowDistributed, n, round)
      decreases n
    {
      if n == 0 || oracleSize == 0 {
        return round - 1;
      }
      var stop, entries, couldNotFit := ScheduleRound(qubitsPerQpu, n, oracleSize, allowDistributed, round == 1);
      schedule := schedule[round := entries];
      if stop {
        return round;
      }
      ghost var mid := schedule;
      last := MakeScheduleFrom(couldNotFit, round + 1);
      ExtendSchedule(old(schedule), mid, schedule, round, last, n, couldNotFit, entries,
                     qubitsPerQpu, oracleSize, allowDistributed);
    }

    /** make_schedule: schedules all numLikelihoods states from round 1. */
    method MakeSchedule() returns (ghost last: int)
      modifies this
      ensures forall r: nat :: r < 1 || r > last ==> Agrees(schedule, old(schedule), r)
      ensures forall r: nat :: 1 <= r <= last ==>
        r in schedule && ValidRound(schedule[r], numLikelihoods, qubitsPerQpu, oracleSize, allowDistributed)
      ensures numLikelihoods > 0 && oracleSize > 0 && !Feasible() ==> last == 1 && schedule[1] == []
      ensures oracleSize > 0 && (numLikelihoods == 0 || Feasible()) ==>
        ScheduledCount(schedule, 1, last) == numLikelihoods
      ensures schedule == Scheduled(old(schedule), qubitsPerQpu, oracleSize, allowDistributed, numLikelihoods, 1)
    {
      last := MakeScheduleFrom(numLikelihoods, 1);
    }
  }
}
