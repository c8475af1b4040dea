/** Lamport clocks across the cluster (internal/timesync/lamport.go): a leader
    sends with every append, a follower receives with every delivery. */
module Lamport {
  import opened Counters
  import opened Ordering

  /** uint64 addition wraps around. */
  function Inc(t: nat): nat {
    (t + 1) % TWO_TO_THE_64
  }

  function Max(a: nat, b: nat): nat {
    if a < b then b else a
  }

  class LamportClock {
    var time: nat

    constructor ()
      ensures time == 0
    {
      time := 0;
    }

    method Tick() returns (t: nat)
      modifies this
      ensures t == time == Inc(old(time))
      ensures old(time) < TWO_TO_THE_64 - 1 ==> old(time) < t
    {
      time := (time + 1) % TWO_TO_THE_64;
      return time;
    }

    method Send() returns (t: nat)
      modifies this
      ensures t == time == Inc(old(time))
      ensures old(time) < TWO_TO_THE_64 - 1 ==> old(time) < t
    {
      t := Tick();
    }

    method Receive(ts: nat) returns (t: nat)
      modifies this
      ensures t == time == Inc(Max(old(time), ts))
      ensures Max(old(time), ts) < TWO_TO_THE_64 - 1 ==> old(time) < t && ts < t
    {
      if ts > time {
        time := ts;
      }
      time := (time + 1) % TWO_TO_THE_64;
      return time;
    }
  }

  /** The step that the clock condition rests on fails at the last uint64 only. */
  lemma IncRaisesUnlessItWraps(t: nat)
    requires t < TWO_TO_THE_64
    ensures t < Inc(t) <==> t != TWO_TO_THE_64 - 1
  {
  }

  // ---------------------------------------------------------------- runs of many nodes

  /** `Deliver` receives the append that event `source` sent. */
  datatype Event = Send(node: string) | Deliver(node: string, source: nat)

  predicate SourcesPrecede(run: seq<Event>) {
    forall i :: 0 <= i < |run| && run[i].Deliver? ==> run[i].source < i && run[run[i].source].Send?
  }

  /** The clock of `node` just before event `i`, from zero and without restarts. */
  function ClockBefore(run: seq<Event>, i: nat, node: string): nat
    requires SourcesPrecede(run) && i <= |run|
    decreases i, 0
  {
    if i == 0 then 0
    else if run[i - 1].node == node then Time(run, i - 1)
    else ClockBefore(run, i - 1, node)
  }

  /** The clock value that event `i` is stamped with. */
  function Time(run: seq<Event>, i: nat): nat
    requires SourcesPrecede(run) && i < |run|
    decreases i, 1
  {
    match run[i]
    case Send(n) => Inc(ClockBefore(run, i, n))
    case Deliver(n, k) => Inc(Max(ClockBefore(run, i, n), Time(run, k)))
  }

  /** Messages carry the clock as int64, and a follower rejects negative ones. */
  ghost predicate ValidRun(run: seq<Event>) {
    SourcesPrecede(run) && forall i :: 0 <= i < |run| && run[i].Deliver? ==> 0 <= Wrap64(Time(run, run[i].source))
  }

  /** What the follower makes of the int64 is the sender's clock. */
  lemma CarriedTimeIsExact(run: seq<Event>, i: nat)
    requires ValidRun(run) && i < |run| && run[i].Deliver?
    ensures Wrap64(Time(run, run[i].source)) == Time(run, run[i].source)
  {
  }

  ghost predicate Direct(run: seq<Event>, i: nat, j: nat) {
    && i < j < |run|
    && (run[i].node == run[j].node || (run[j].Deliver? && run[j].source == i))
  }

  ghost predicate Link(run: seq<Event>, path: seq<nat>, k: nat)
    requires k + 1 < |path|
  {
    Direct(run, path[k], path[k + 1])
  }

  ghost predicate Chain(run: seq<Event>, path: seq<nat>) {
    |path| >= 2 && forall k :: 0 <= k < |path| - 1 ==> Link(run, path, k)
  }

  /** Program order and append messages, transitively. */
  ghost predicate HappenedBefore(run: seq<Event>, i: nat, j: nat) {
    exists path :: Chain(run, path) && path[0] == i && path[|path| - 1] == j
  }

  /** Fewer than 2^64 events never wrap a clock. */
  lemma {:induction false} TimesAreBounded(run: seq<Event>, i: nat, node: string)
    requires SourcesPrecede(run) && i <= |run| < TWO_TO_THE_64
    ensures ClockBefore(run, i, node) <= i
    ensures i < |run| ==> Time(run, i) <= i + 1
    ensures i < |run| ==> ClockBefore(run, i, run[i].node) < Time(run, i)
    ensures i < |run| && run[i].Deliver? ==> Time(run, run[i].source) < Time(run, i)
    decreases i, 1
  {
    if i == 0 {
    } else {
      TimesAreBounded(run, i - 1, node);
    }
    if i < |run| {
      BoundAtOwnNode(run, i, run[i].node);
      if run[i].Deliver? {
        TimesAreBounded(run, run[i].source, node);
      }
    }
  }

  lemma {:induction false} BoundAtOwnNode(run: seq<Event>, i: nat, node: string)
    requires SourcesPrecede(run) && i <= |run| < TWO_TO_THE_64
    ensures ClockBefore(run, i, node) <= i
    decreases i, 0
  {
    if i == 0 {
    } else {
      TimesAreBounded(run, i - 1, node);
    }
  }

  lemma {:induction false} ClockKeepsUp(run: seq<Event>, i: nat, j: nat)
    requires SourcesPrecede(run) && i < j <= |run| < TWO_TO_THE_64
    ensures Time(run, i) <= ClockBefore(run, j, run[i].node)
  {
    if i == j - 1 {
    } else {
      ClockKeepsUp(run, i, j - 1);
      TimesAreBounded(run, j - 1, run[i].node);
    }
  }

  lemma DirectRaisesTime(run: seq<Event>, i: nat, j: nat)
    requires SourcesPrecede(run) && |run| < TWO_TO_THE_64 && Direct(run, i, j)
    ensures Time(run, i) < Time(run, j)
  {
    TimesAreBounded(run, j, run[j].node);
    if run[i].node == run[j].node {
      ClockKeepsUp(run, i, j);
    }
  }

  lemma {:induction false} ChainRaisesTime(run: seq<Event>, path: seq<nat>)
    requires SourcesPrecede(run) && |run| < TWO_TO_THE_64 && Chain(run, path)
    ensures path[0] < path[|path| - 1] < |run|
    ensures Time(run, path[0]) < Time(run, path[|path| - 1])
  {
    var n := |path| - 1;
    assert Link(run, path, n - 1);
    DirectRaisesTime(run, path[n - 1], path[n]);
    if n == 1 {
    } else {
      var init := path[..n];
      forall k | 0 <= k < |init| - 1
        ensures Link(run, init, k)
      {
        assert Link(run, path, k);
      }
      ChainRaisesTime(run, init);
    }
  }

  function Stamp(run: seq<Event>, i: nat): Transaction
    requires SourcesPrecede(run) && i < |run|
  {
    Transaction(Time(run, i), run[i].node, "")
  }

  /** The clock condition, and the order it gives: in a run of fewer than 2^64
      events happened-before implies a smaller clock, and Compare on (time,
      node) is a strict total order on the events that extends it. */
  lemma EventsAreTotallyOrdered(run: seq<Event>, i: nat, j: nat, k: nat)
    requires ValidRun(run) && |run| < TWO_TO_THE_64
    requires i < |run| && j < |run| && k < |run|
    ensures HappenedBefore(run, i, j) ==> Time(run, i) < Time(run, j) && Compare(Stamp(run, i), Stamp(run, j)) == -1
    ensures Compare(Stamp(run, i), Stamp(run, j)) == 0 <==> i == j
    ensures Compare(Stamp(run, i), Stamp(run, j)) == -Compare(Stamp(run, j), Stamp(run, i))
    ensures Compare(Stamp(run, i), Stamp(run, j)) < 0 && Compare(Stamp(run, j), Stamp(run, k)) < 0 ==>
              Compare(Stamp(run, i), Stamp(run, k)) < 0
  {
    CompareIsTotalOrder(Stamp(run, i), Stamp(run, j), Stamp(run, k));
    if i != j && run[i].node == run[j].node {
      var first, second := if i < j then i else j, if i < j then j else i;
      DirectRaisesTime(run, first, second);
    }
    if HappenedBefore(run, i, j) {
      var path :| Chain(run, path) && path[0] == i && path[|path| - 1] == j;
      ChainRaisesTime(run, path);
    }
  }
}
