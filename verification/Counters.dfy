/** The shared ZooKeeper counters (internal/coordination/counters.go): a
    versioned register, and the compare-and-set loops over it. */
module Counters {

  const TWO_TO_THE_63: int := 0x8000_0000_0000_0000
  const TWO_TO_THE_64: int := 0x1_0000_0000_0000_0000

  /** Go's int64 arithmetic wraps around. */
  function Wrap64(x: int): int {
    (x + TWO_TO_THE_63) % TWO_TO_THE_64 - TWO_TO_THE_63
  }

  datatype Register = Register(value: int, version: nat)

  /** The index a handler asks for after reading the head. */
  function NextIndex(head: int): int {
    Wrap64(head + 1)
  }

  /** Whatever the other writers of the log head did between two looks at it:
      nothing, or some writes, each of which raised both value and version. */
  predicate Raised(before: Register, now: Register) {
    now == before || (before.value < now.value && before.version < now.version)
  }

  lemma NextIndexIsNextOrRejected(head: int)
    requires -TWO_TO_THE_63 <= head < TWO_TO_THE_63
    ensures NextIndex(head) == head + 1 || NextIndex(head) <= head
    ensures NextIndex(head) == head + 1 <==> head < TWO_TO_THE_63 - 1
  {
  }

  lemma WrapAdd(a: int, b: int)
    ensures Wrap64(Wrap64(a) + b) == Wrap64(a + b)
  {
  }

  function Sum(ns: seq<nat>): nat {
    if ns == [] then 0 else Sum(ns[..|ns| - 1]) + ns[|ns| - 1]
  }

  class CounterNode {
    var reg: Register

    constructor (value: int)
      ensures reg == Register(value, 0)
    {
      reg := Register(value, 0);
    }

    /** Set with an expected version. */
    method CompareAndSet(value: int, version: nat) returns (ok: bool)
      modifies this
      ensures ok <==> old(reg).version == version
      ensures reg == if ok then Register(value, version + 1) else old(reg)
    {
      ok := reg.version == version;
      if ok {
        reg := Register(value, version + 1);
      }
    }

    /** The other writers of the log head, as an arbitrary interference. */
    method OtherHeadWriters()
      modifies this
      ensures Raised(old(reg), reg)
    {
      var writes: nat, raise: nat :| writes == 0 <==> raise == 0;
      reg := Register(reg.value + raise, reg.version + writes);
    }

    /** leaderAdvanceLogHead, with the answer of its one lease check. Other writers
        may act before every read and before every write. `attempts` counts the
        iterations of the loop, and `seen` is the register at the last read, or at
        the lease check. It writes at most once, and only onto the register it has
        seen. */
    method AdvanceLogHead(held: bool, next: int) returns (ok: bool, ghost attempts: nat, ghost seen: Register)
      modifies this
      ensures Raised(old(reg), seen)
      ensures ok ==> held && seen.value < next && reg == Register(next, seen.version + 1)
      ensures !ok ==> reg == seen && (held ==> next <= seen.value)
      ensures !held ==> !ok && attempts == 0
      ensures old(reg).value < next ==> attempts <= next - old(reg).value + 1
      ensures held && next <= old(reg).value ==> !ok && attempts == 1
    {
      OtherHeadWriters();
      attempts, seen := 0, reg;
      if !held {
        return false, attempts, seen;
      }
      while true
        invariant Raised(old(reg), reg)
        invariant old(reg).value + attempts <= reg.value
        invariant attempts > 0 ==> attempts <= next - old(reg).value
        decreases next - reg.value
      {
        OtherHeadWriters();
        var got := reg;
        seen := got;
        attempts := attempts + 1;
        if next <= got.value {
          return false, attempts, seen;
        }
        OtherHeadWriters();
        var swapped := CompareAndSet(next, got.version);
        if swapped {
          return true, attempts, seen;
        }
      }
    }

    /** bumpTermWithCAS: `rivals[k]` other bumps land between this call's k-th
        read and its k-th write, and none after the list ends. */
    method BumpTerm(rivals: seq<nat>) returns (term: int, ghost attempts: nat)
      requires -TWO_TO_THE_63 <= reg.value < TWO_TO_THE_63
      modifies this
      ensures attempts <= |rivals|
      ensures term == reg.value == Wrap64(old(reg).value + Sum(rivals[..attempts]) + 1)
      ensures reg.version == old(reg).version + Sum(rivals[..attempts]) + 1
      ensures forall k :: 0 <= k < attempts ==> rivals[k] > 0
      ensures attempts < |rivals| ==> rivals[attempts] == 0
    {
      attempts := 0;
      var k := 0;
      while true
        invariant k == attempts <= |rivals|
        invariant forall j :: 0 <= j < k ==> rivals[j] > 0
        invariant reg.value == Wrap64(old(reg).value + Sum(rivals[..k]))
        invariant reg.version == old(reg).version + Sum(rivals[..k])
        decreases |rivals| - k
      {
        var got := reg;
        WrapAdd(old(reg).value + Sum(rivals[..k]), 1);
        WrapAdd(old(reg).value + Sum(rivals[..k]), if k < |rivals| then rivals[k] else 0);
        var others := if k < |rivals| then rivals[k] else 0;
        reg := Register(Wrap64(reg.value + others), reg.version + others);
        var swapped := CompareAndSet(Wrap64(got.value + 1), got.version);
        if swapped {
          return Wrap64(got.value + 1), attempts;
        }
        assert rivals[..k + 1][..k] == rivals[..k];
        k, attempts := k + 1, attempts + 1;
      }
    }
  }
}
