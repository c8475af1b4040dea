/** The order on timestamped events (internal/timesync/ordering.go). */
module Ordering {

  datatype Transaction = Transaction(timestamp: nat, nodeID: string, data: string)

  /** strings.Compare */
  function CompareText(a: string, b: string): (c: int)
    ensures -1 <= c <= 1
  {
    if a == [] then (if b == [] then 0 else -1)
    else if b == [] then 1
    else if a[0] < b[0] then -1
    else if a[0] > b[0] then 1
    else CompareText(a[1..], b[1..])
  }

  function Compare(a: Transaction, b: Transaction): (c: int)
    ensures -1 <= c <= 1
  {
    if a.timestamp < b.timestamp then -1
    else if a.timestamp > b.timestamp then 1
    else CompareText(a.nodeID, b.nodeID)
  }

  lemma {:induction false} TextOrder(a: string, b: string, c: string)
    ensures CompareText(a, b) == -CompareText(b, a)
    ensures CompareText(a, b) == 0 <==> a == b
    ensures CompareText(a, b) <= 0 && CompareText(b, c) <= 0 ==> CompareText(a, c) <= 0
  {
    if a == [] || b == [] {
    } else {
      TextOrder(a[1..], b[1..], if c != [] then c[1..] else []);
      if a[0] == b[0] {
        assert a == [a[0]] + a[1..] && b == [b[0]] + b[1..];
      }
    }
  }

  /** The first position at which the texts differ, or one of them ends. */
  ghost predicate PartAt(a: string, b: string, i: nat) {
    i <= |a| && i <= |b| && a[..i] == b[..i] && (i < |a| && i < |b| ==> a[i] != b[i])
  }

  /** Texts are ordered as in a dictionary: a proper prefix comes first, and
      otherwise the smaller character at the first difference. */
  lemma {:induction false} TextIsAlphabetical(a: string, b: string, i: nat)
    requires PartAt(a, b, i)
    ensures CompareText(a, b) == -1 <==> i < |b| && (i == |a| || a[i] < b[i])
    ensures CompareText(a, b) == 1 <==> i < |a| && (i == |b| || b[i] < a[i])
  {
    if i == 0 {
    } else {
      assert a[0] == a[..i][0] && b[0] == b[..i][0];
      assert a[1..][..i - 1] == a[..i][1..] && b[1..][..i - 1] == b[..i][1..];
      TextIsAlphabetical(a[1..], b[1..], i - 1);
    }
  }

  /** The smaller time comes first, and with equal times the node id that comes
      first in the alphabet. */
  lemma CompareDirection(a: Transaction, b: Transaction, i: nat)
    requires PartAt(a.nodeID, b.nodeID, i)
    ensures a.timestamp < b.timestamp ==> Compare(a, b) == -1
    ensures a.timestamp == b.timestamp ==>
              (Compare(a, b) == -1 <==> i < |b.nodeID| && (i == |a.nodeID| || a.nodeID[i] < b.nodeID[i]))
  {
    TextIsAlphabetical(a.nodeID, b.nodeID, i);
  }

  /** Compare is a total order on (timestamp, node): antisymmetric, transitive,
      and zero for equal pairs only. */
  lemma CompareIsTotalOrder(a: Transaction, b: Transaction, c: Transaction)
    ensures Compare(a, b) == -Compare(b, a)
    ensures Compare(a, b) == 0 <==> a.timestamp == b.timestamp && a.nodeID == b.nodeID
    ensures Compare(a, b) < 0 && Compare(b, c) < 0 ==> Compare(a, c) < 0
  {
    TextOrder(a.nodeID, b.nodeID, c.nodeID);
    TextOrder(b.nodeID, c.nodeID, a.nodeID);
    TextOrder(a.nodeID, c.nodeID, b.nodeID);
  }
}
