/** Quorum replication by the leader (internal/replication/service.go). */
module Quorum {
  import opened Wrappers
  import opened Replication
  import opened Storage

  /** totalNodes/2 + 1 */
  function RequiredQuorum(totalNodes: nat): nat {
    totalNodes / 2 + 1
  }

  // ---------------------------------------------------------------- counting acknowledgements

  /** One message on the results channel: follower `index` acknowledged or not. */
  datatype AppendResult = AppendResult(index: nat, ack: bool)

  /** Every follower reports exactly once, in any order. */
  ghost predicate Complete(arrivals: seq<AppendResult>, followers: nat) {
    && |arrivals| == followers
    && (forall k :: 0 <= k < |arrivals| ==> arrivals[k].index < followers)
    && (forall j, k :: 0 <= j < k < |arrivals| ==> arrivals[j].index != arrivals[k].index)
  }

  /** The followers that acknowledged, whatever the order of the channel. */
  function Acked(arrivals: seq<AppendResult>): set<nat> {
    if arrivals == [] then {}
    else
      var last := arrivals[|arrivals| - 1];
      Acked(arrivals[..|arrivals| - 1]) + if last.ack then {last.index} else {}
  }

  /** Whether `count` follower acknowledgements and the leader's own make a quorum. */
  predicate QuorumOf(count: nat, followers: nat) {
    1 + count >= RequiredQuorum(1 + followers)
  }

  lemma {:induction false} AckedMember(arrivals: seq<AppendResult>, i: nat)
    ensures i in Acked(arrivals) <==> AppendResult(i, true) in arrivals
  {
    if arrivals == [] {
    } else {
      AckedMember(arrivals[..|arrivals| - 1], i);
      assert arrivals == arrivals[..|arrivals| - 1] + [arrivals[|arrivals| - 1]];
    }
  }

  lemma AckedTakesOneMore(arrivals: seq<AppendResult>, k: nat)
    requires k < |arrivals|
    requires forall i, j :: 0 <= i < j < |arrivals| ==> arrivals[i].index != arrivals[j].index
    ensures Acked(arrivals[..k + 1]) == Acked(arrivals[..k]) + if arrivals[k].ack then {arrivals[k].index} else {}
    ensures arrivals[k].index !in Acked(arrivals[..k])
  {
    assert arrivals[..k + 1][..k] == arrivals[..k];
    AckedMember(arrivals[..k], arrivals[k].index);
  }

  /** The order in which followers answer does not matter. */
  lemma TallyIgnoresOrder(a: seq<AppendResult>, b: seq<AppendResult>)
    requires multiset(a) == multiset(b)
    ensures Acked(a) == Acked(b)
  {
    forall i: nat
      ensures i in Acked(a) <==> i in Acked(b)
    {
      AckedMember(a, i);
      AckedMember(b, i);
      assert AppendResult(i, true) in a <==> AppendResult(i, true) in multiset(a);
    }
  }

  // ---------------------------------------------------------------- the replication call

  datatype FollowerResult = FollowerResult(url: Node, appendAcknowledged: bool, commitAcknowledged: bool)

  datatype Result = Result(
    quorumReached: bool,
    localAppendOK: bool,
    ackCount: nat,
    requiredQuorum: nat,
    committed: bool,
    followers: seq<FollowerResult>)

  datatype CallError = BadEntry | LocalAppendFailed | LocalFinalizeFailed

  /** The local append, with an entry that is already there taken for success. */
  function AppendOrFind(l: Ledger, e: LogEntry, insertDb: Db, existsDb: bool): (Ledger, bool) {
    var (l1, out) := Append(l, e.(status := Pending), insertDb);
    (l1, out.Ok? || (existsDb && Has(l1, e.paymentID)))
  }

  /** How a call ends, from the table it meets, the number of followers that
      acknowledge, and which local database calls work; and the table it leaves. */
  datatype Stage = Rejected | NotAppended | NoQuorum | NotFinalized | Decided

  function Course(l: Ledger, e: LogEntry, acked: nat, followers: nat, target: Status,
                  insertDb: Db, existsDb: bool, finalDb: Db): (Stage, Ledger)
  {
    if !ValidEntry(e) then (Rejected, l)
    else
      var (l1, present) := AppendOrFind(l, e, insertDb, existsDb);
      if !present then (NotAppended, l1)
      else if !QuorumOf(acked, followers) then (NoQuorum, l1)
      else
        var (l2, out) := Finalize(l1, e.paymentID, target, finalDb);
        (if out.Ok? then Decided else NotFinalized, l2)
  }

  lemma AppendOrFindExtends(l: Ledger, e: LogEntry, insertDb: Db, existsDb: bool)
    requires WellFormed(l) && ValidEntry(e)
    ensures var (l1, present) := AppendOrFind(l, e, insertDb, existsDb);
            && WellFormed(l1) && Extends(l, l1)
            && (present ==> Has(l1, e.paymentID))
            && (present <==> if Has(l, e.paymentID) then existsDb else insertDb.exec)
            && (Has(l, e.paymentID) ==> l1 == l)
  {
  }

  lemma FinalizeIsSafe(l: Ledger, p: PaymentId, target: Status, db: Db)
    requires WellFormed(l) && Terminal(target)
    ensures var (l', out) := Finalize(l, p, target, db);
            WellFormed(l') && Extends(l, l') && (out.Ok? ==> StatusIs(l', p, target))
  {
    FinalizeExtends(l, p, target, db);
  }

  /** What the leader may conclude from the stage a call reached. */
  lemma CourseIsSafe(l: Ledger, e: LogEntry, acked: nat, followers: nat, target: Status,
                     insertDb: Db, existsDb: bool, finalDb: Db)
    requires WellFormed(l) && Terminal(target)
    ensures var (stage, l') := Course(l, e, acked, followers, target, insertDb, existsDb, finalDb);
            && WellFormed(l') && Extends(l, l')
            && (stage.Decided? ==> QuorumOf(acked, followers) && StatusIs(l', e.paymentID, target))
            && (stage.NoQuorum? ==> Has(l', e.paymentID) && !QuorumOf(acked, followers))
            && (!QuorumOf(acked, followers) && Has(l, e.paymentID) ==> l' == l)
  {
    if ValidEntry(e) {
      AppendOrFindExtends(l, e, insertDb, existsDb);
      var l1 := AppendOrFind(l, e, insertDb, existsDb).0;
      FinalizeIsSafe(l1, e.paymentID, target, finalDb);
      ExtendsTransitive(l, l1, Finalize(l1, e.paymentID, target, finalDb).0);
    }
  }

  /** When each stage is reached: the local append works, or the payment is known
      to exist; more than half of the addressed nodes, list entries counted one by
      one, acknowledge; and the local finalizer reports success. */
  lemma CourseStages(l: Ledger, e: LogEntry, acked: nat, followers: nat, target: Status,
                     insertDb: Db, existsDb: bool, finalDb: Db)
    requires Terminal(target)
    ensures var (stage, l') := Course(l, e, acked, followers, target, insertDb, existsDb, finalDb);
            var known := Has(l, e.paymentID);
            var present := ValidEntry(e) && if known then existsDb else insertDb.exec;
            var reached := present && 2 * (1 + acked) > 1 + followers;
            var updates := !known || StatusIs(l, e.paymentID, Pending);
            && (stage.Rejected? <==> !ValidEntry(e))
            && (stage.NotAppended? <==> ValidEntry(e) && !present)
            && (stage.NoQuorum? <==> present && !reached)
            && (stage.Decided? <==> reached && finalDb.exec && finalDb.affected
                                    && (updates || (finalDb.query && StatusIs(l, e.paymentID, target))))
  {
  }

  /** On a healthy database a call with a quorum never leaves its row PENDING,
      and it is decided exactly when the row ends with the call's status. */
  lemma HealthyCourseIsExact(l: Ledger, e: LogEntry, acked: nat, followers: nat, target: Status)
    requires WellFormed(l) && ValidEntry(e) && Terminal(target)
    ensures var (stage, l') := Course(l, e, acked, followers, target, HEALTHY, true, HEALTHY);
            && !stage.NotAppended? && Has(l', e.paymentID)
            && (stage.NoQuorum? <==> !QuorumOf(acked, followers))
            && (QuorumOf(acked, followers) ==> Terminal(l'.rows[e.paymentID].status))
            && (QuorumOf(acked, followers) ==> (stage.Decided? <==> StatusIs(l', e.paymentID, target)))
  {
  }

  /** The per-follower part of the result. */
  function FollowerResults(urls: seq<Node>, acks: set<nat>, confirmed: nat -> bool): (results: seq<FollowerResult>)
    ensures |results| == |urls|
  {
    seq(|urls|, i requires 0 <= i < |urls| => FollowerResult(urls[i], i in acks, confirmed(i)))
  }

  /** One result for each listed follower: its append flag is set iff its result on
      the channel is an acknowledgement, and the acknowledgements flagged are those
      that were counted. */
  lemma FlagsAreAcks(urls: seq<Node>, arrivals: seq<AppendResult>, confirmed: nat -> bool)
    requires Complete(arrivals, |urls|)
    ensures var results := FollowerResults(urls, Acked(arrivals), confirmed);
            && |results| == |urls|
            && (forall i :: 0 <= i < |urls| ==>
                  && results[i].url == urls[i]
                  && (results[i].appendAcknowledged <==> AppendResult(i, true) in arrivals)
                  && (results[i].commitAcknowledged <==> confirmed(i)))
            && (set i: nat | i < |urls| && results[i].appendAcknowledged) == Acked(arrivals)
  {
    forall i: nat
      ensures i in Acked(arrivals) <==> AppendResult(i, true) in arrivals
    {
      AckedMember(arrivals, i);
    }
    forall i: nat | i in Acked(arrivals)
      ensures i < |urls|
    {
      AckedMember(arrivals, i);
      var k :| 0 <= k < |arrivals| && arrivals[k] == AppendResult(i, true);
    }
  }

  lemma MarkOneMore(urls: seq<Node>, acks: set<nat>, i: nat)
    requires i < |urls|
    ensures FollowerResults(urls, acks + {i}, _ => false) ==
            FollowerResults(urls, acks, _ => false)[i := FollowerResult(urls[i], true, false)]
  {
  }

  /** Draining the results channel. */
  method Tally(urls: seq<Node>, arrivals: seq<AppendResult>)
    returns (results: seq<FollowerResult>, ackCount: nat)
    requires Complete(arrivals, |urls|)
    ensures ackCount == 1 + |Acked(arrivals)|
    ensures results == FollowerResults(urls, Acked(arrivals), _ => false)
  {
    results := FollowerResults(urls, {}, _ => false);
    ackCount := 1;
    var k := 0;
    while k < |arrivals|
      invariant 0 <= k <= |arrivals|
      invariant ackCount == 1 + |Acked(arrivals[..k])|
      invariant results == FollowerResults(urls, Acked(arrivals[..k]), _ => false)
    {
      AckedTakesOneMore(arrivals, k);
      var r := arrivals[k];
      if r.ack {
        MarkOneMore(urls, Acked(arrivals[..k]), r.index);
        results := results[r.index := results[r.index].(appendAcknowledged := true)];
        ackCount := ackCount + 1;
      }
      k := k + 1;
    }
    assert arrivals[..k] == arrivals;
  }

  /** Sending the finalize message to every follower in turn. */
  method Announce(initial: seq<FollowerResult>, replies: seq<bool>)
    returns (results: seq<FollowerResult>, sent: seq<nat>)
    requires |replies| == |initial|
    requires forall i :: 0 <= i < |initial| ==> !initial[i].commitAcknowledged
    ensures sent == seq(|initial|, i => i)
    ensures |results| == |initial|
    ensures forall i :: 0 <= i < |initial| ==> results[i] == initial[i].(commitAcknowledged := replies[i])
  {
    results, sent := initial, [];
    var k := 0;
    while k < |initial|
      invariant 0 <= k <= |initial|
      invariant |results| == |initial|
      invariant sent == seq(k, i => i)
      invariant forall i :: 0 <= i < |initial| ==>
                  results[i] == initial[i].(commitAcknowledged := i < k && replies[i])
    {
      sent := sent + [k];
      if replies[k] {
        results := results[k := results[k].(commitAcknowledged := true)];
      }
      k := k + 1;
    }
  }

  class ReplicationService {
    const ledger: SQLiteStore

    constructor (ledger: SQLiteStore)
      ensures this.ledger == ledger
    {
      this.ledger := ledger;
    }

    method AppendLocally(e: LogEntry, insertDb: Db, existsDb: bool) returns (present: bool)
      modifies ledger
      ensures (ledger.Contents(), present) == AppendOrFind(old(ledger.Contents()), e, insertDb, existsDb)
    {
      var appended := ledger.AppendPending(e.(status := Pending), insertDb);
      present := true;
      if appended.Err? {
        var known := ledger.ExistsByPaymentID(e.paymentID);
        present := existsDb && known;
      }
    }

    /** ReplicateWithQuorum for target COMMITTED, ReplicateCancelWithQuorum for
        target CANCELED: the two differ in the finalizer alone. `arrivals` are
        the append results in the order the channel delivers them, `replies[i]`
        is whether follower i acknowledges its finalize message, and `sent`
        lists the followers that were sent one. */
    method Replicate(e: LogEntry, urls: seq<Node>, target: Status,
                     arrivals: seq<AppendResult>, replies: seq<bool>,
                     insertDb: Db, existsDb: bool, finalDb: Db)
      returns (result: Result, error: Option<CallError>, sent: seq<nat>)
      requires target.Committed? || target.Canceled?
      requires Complete(arrivals, |urls|) && |replies| == |urls|
      modifies ledger
      ensures
        var (stage, after) :=
          Course(old(ledger.Contents()), e, |Acked(arrivals)|, |urls|, target, insertDb, existsDb, finalDb);
        && ledger.Contents() == after
        && (result.committed <==> stage.Decided?)
        && (result.localAppendOK <==> stage.NoQuorum? || stage.NotFinalized? || stage.Decided?)
        && (result.quorumReached <==> stage.NotFinalized? || stage.Decided?)
        && (error.None? <==> stage.NoQuorum? || stage.Decided?)
        && sent == (if stage.Decided? then seq(|urls|, i => i) else [])
      ensures result.ackCount == if result.localAppendOK then 1 + |Acked(arrivals)| else 0
      ensures result.localAppendOK ==> (result.quorumReached <==> result.ackCount >= RequiredQuorum(1 + |urls|))
      ensures error == Some(BadEntry) <==> !ValidEntry(e)
      ensures error == Some(LocalFinalizeFailed) <==> result.quorumReached && !result.committed
      ensures result.requiredQuorum == if ValidEntry(e) then (1 + |urls|) / 2 + 1 else 0
      ensures error == Some(LocalAppendFailed) ==> result.followers == FollowerResults(urls, {}, _ => false)
      ensures result.localAppendOK ==>
                result.followers == FollowerResults(urls, Acked(arrivals),
                                                    (i: nat) => result.committed && i < |replies| && replies[i])
    {
      error, sent := None, [];
      if !ValidEntry(e) {
        return Result(false, false, 0, 0, false, []), Some(BadEntry), sent;
      }
      result := Result(false, false, 0, RequiredQuorum(1 + |urls|), false, []);
      var present := AppendLocally(e, insertDb, existsDb);
      if !present {
        return result.(followers := FollowerResults(urls, {}, _ => false)), Some(LocalAppendFailed), sent;
      }

      var results, ackCount := Tally(urls, arrivals);
      var quorum := ackCount >= RequiredQuorum(1 + |urls|);
      result := Result(quorum, true, ackCount, RequiredQuorum(1 + |urls|), false, results);
      if !quorum {
        return;
      }
      var finalized: Outcome;
      if target.Committed? {
        finalized := ledger.CommitByPaymentID(e.paymentID, finalDb);
      } else {
        finalized := ledger.CancelByPaymentID(e.paymentID, finalDb);
      }
      if finalized.Err? {
        return result, Some(LocalFinalizeFailed), sent;
      }
      results, sent := Announce(results, replies);
      result := result.(committed := true, followers := results);
    }
  }

  // ---------------------------------------------------------------- what a quorum is worth

  ghost predicate Distinct(urls: seq<Node>) {
    forall i, j :: 0 <= i < j < |urls| ==> urls[i] != urls[j]
  }

  /** The nodes a call addresses, its own included. */
  function Addressed(self: Node, urls: seq<Node>): set<Node> {
    {self} + set u | u in urls
  }

  /** The nodes that hold the entry when the followers in `acks` acknowledged. */
  function Holders(self: Node, urls: seq<Node>, acks: set<nat>): set<Node>
    requires forall i :: i in acks ==> i < |urls|
  {
    {self} + set i | i in acks :: urls[i]
  }

  /** Counting a duplicate-free image. */
  lemma {:induction false} ImageSize(urls: seq<Node>, indices: set<nat>)
    requires Distinct(urls)
    requires forall i :: i in indices ==> i < |urls|
    ensures |set i | i in indices :: urls[i]| == |indices|
  {
    if indices == {} {
    } else {
      var k :| k in indices;
      ImageSize(urls, indices - {k});
      var rest := set i | i in indices - {k} :: urls[i];
      assert (set i | i in indices :: urls[i]) == rest + {urls[k]};
      assert urls[k] !in rest;
    }
  }

  lemma AddressedOneMore(self: Node, urls: seq<Node>)
    requires Distinct(urls) && self !in urls && urls != []
    ensures var n := |urls| - 1;
            && Addressed(self, urls) == Addressed(self, urls[..n]) + {urls[n]}
            && urls[n] !in Addressed(self, urls[..n])
  {
    var n := |urls| - 1;
    assert urls == urls[..n] + [urls[n]];
  }

  lemma {:induction false} AddressedSize(self: Node, urls: seq<Node>)
    requires Distinct(urls) && self !in urls
    ensures |Addressed(self, urls)| == 1 + |urls|
  {
    if urls == [] {
      assert Addressed(self, urls) == {self};
    } else {
      var n := |urls| - 1;
      var rest := urls[..n];
      AddressedSize(self, rest);
      AddressedOneMore(self, urls);
    }
  }

  /** The followers in the list, by position, that are among `nodes`. */
  function PositionsOf(urls: seq<Node>, nodes: set<Node>): set<nat> {
    set i: nat | i < |urls| && urls[i] in nodes
  }

  /** No group of half the addressed nodes or fewer, the caller among them, is
      listed often enough to pass for a quorum. */
  ghost predicate NoMinorityPasses(self: Node, urls: seq<Node>) {
    forall group :: self in group && 2 * |group| <= |Addressed(self, urls)| ==>
                      !QuorumOf(|PositionsOf(urls, group)|, |urls|)
  }

  ghost predicate IsMajority(self: Node, urls: seq<Node>, acks: set<nat>)
    requires forall i :: i in acks ==> i < |urls|
  {
    2 * |Holders(self, urls, acks)| > |Addressed(self, urls)|
  }

  /** The list is not checked for duplicates. Every quorum over it is a strict
      majority of the distinct nodes addressed exactly when no minority passes,
      which the list alone decides. */
  lemma QuorumsAreMajoritiesIff(self: Node, urls: seq<Node>)
    ensures (forall acks: set<nat> :: (forall i :: i in acks ==> i < |urls|) && QuorumOf(|acks|, |urls|) ==>
                                        IsMajority(self, urls, acks))
            <==> NoMinorityPasses(self, urls)
  {
    if NoMinorityPasses(self, urls) {
      forall acks: set<nat> | (forall i :: i in acks ==> i < |urls|) && QuorumOf(|acks|, |urls|)
        ensures IsMajority(self, urls, acks)
      {
        SubsetSize(acks, PositionsOf(urls, Holders(self, urls, acks)));
      }
    } else {
      var group :| self in group && 2 * |group| <= |Addressed(self, urls)|
                   && QuorumOf(|PositionsOf(urls, group)|, |urls|);
      var acks := PositionsOf(urls, group);
      SubsetSize(Holders(self, urls, acks), group);
      assert !IsMajority(self, urls, acks);
    }
  }

  /** Over a duplicate-free follower list a quorum is more than half of the
      distinct nodes addressed. */
  lemma QuorumIsDistinctMajority(self: Node, urls: seq<Node>, acks: set<nat>)
    requires Distinct(urls) && self !in urls
    requires forall i :: i in acks ==> i < |urls|
    ensures QuorumOf(|acks|, |urls|) <==> IsMajority(self, urls, acks)
  {
    AddressedSize(self, urls);
    ImageSize(urls, acks);
    assert self !in (set i | i in acks :: urls[i]);
  }

  /** Lists without duplicates meet the condition. */
  lemma DistinctListsAreSafe(self: Node, urls: seq<Node>)
    requires Distinct(urls) && self !in urls
    ensures NoMinorityPasses(self, urls)
  {
    forall acks: set<nat> | (forall i :: i in acks ==> i < |urls|) && QuorumOf(|acks|, |urls|)
      ensures IsMajority(self, urls, acks)
    {
      QuorumIsDistinctMajority(self, urls, acks);
    }
    QuorumsAreMajoritiesIff(self, urls);
  }

  /** Any two quorums over the same addressed nodes share a node, whichever
      nodes called and in whichever order they list the followers. */
  lemma QuorumsIntersect(self1: Node, urls1: seq<Node>, acks1: set<nat>,
                         self2: Node, urls2: seq<Node>, acks2: set<nat>)
    requires NoMinorityPasses(self1, urls1) && NoMinorityPasses(self2, urls2)
    requires Addressed(self1, urls1) == Addressed(self2, urls2)
    requires forall i :: i in acks1 ==> i < |urls1|
    requires forall i :: i in acks2 ==> i < |urls2|
    requires QuorumOf(|acks1|, |urls1|) && QuorumOf(|acks2|, |urls2|)
    ensures Holders(self1, urls1, acks1) * Holders(self2, urls2, acks2) != {}
  {
    QuorumsAreMajoritiesIff(self1, urls1);
    QuorumsAreMajoritiesIff(self2, urls2);
    assert IsMajority(self1, urls1, acks1) && IsMajority(self2, urls2, acks2);
    var h1, h2 := Holders(self1, urls1, acks1), Holders(self2, urls2, acks2);
    var all := Addressed(self1, urls1);
    assert h1 <= all && h2 <= all;
    SubsetSize(h1 + h2, all);
    assert |h1 + h2| == |h1| + |h2| - |h1 * h2|;
  }

  lemma {:induction false} SubsetSize<T>(a: set<T>, b: set<T>)
    requires a <= b
    ensures |a| <= |b|
  {
    if a == {} {
    } else {
      var x :| x in a;
      SubsetSize(a - {x}, b - {x});
    }
  }

  lemma SubsetIsAll<T>(a: set<T>, b: set<T>)
    requires a <= b && |a| == |b|
    ensures a == b
  {
    if b - a != {} {
      var x :| x in b - a;
      SubsetSize(a, b - {x});
    }
  }

  /** A node listed three times counts three times, and two of four nodes can
      then pass for a quorum. */
  lemma DuplicatesBreakTheMajority(self: Node, b: Node, c: Node, d: Node)
    requires self != b && self != c && self != d && b != c && b != d && c != d
    ensures var urls, acks := [b, b, b, c, d], {0, 1, 2};
            QuorumOf(|acks|, |urls|) && !IsMajority(self, urls, acks)
  {
    var urls, acks := [b, b, b, c, d], {0, 1, 2};
    TwoHold(self, urls, acks, b);
    FourAddressed(self, urls, b, c, d);
    assert |{self, b, c, d}| == 4;
    assert |acks| == 3;
  }

  lemma TwoHold(self: Node, urls: seq<Node>, acks: set<nat>, b: Node)
    requires forall i :: i in acks ==> i < |urls| && urls[i] == b
    ensures |Holders(self, urls, acks)| <= 2
  {
    SubsetSize(Holders(self, urls, acks), {self, b});
  }

  lemma FourAddressed(self: Node, urls: seq<Node>, b: Node, c: Node, d: Node)
    requires b in urls && c in urls && d in urls
    ensures |{self, b, c, d}| <= |Addressed(self, urls)|
  {
    SubsetSize({self, b, c, d}, Addressed(self, urls));
  }

  /** Duplicates alone do no harm: over a list of one node, twice, every quorum
      is a majority. */
  lemma DuplicatesCanBeSafe(self: Node, other: Node)
    requires self != other
    ensures !Distinct([other, other]) && NoMinorityPasses(self, [other, other])
  {
    var urls := [other, other];
    assert urls[0] == urls[1];
    assert Addressed(self, urls) == {self, other};
    forall group: set<Node> | self in group && 2 * |group| <= |Addressed(self, urls)|
      ensures !QuorumOf(|PositionsOf(urls, group)|, |urls|)
    {
      assert |group - {self}| == 0;
      assert PositionsOf(urls, group) == {};
    }
  }
}
