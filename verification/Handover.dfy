/** Which handovers are safe, exactly: whether any continuation under the new
    leader can make two nodes disagree (internal/api/http.go,
    internal/replication/service.go). */
module Handover {
  import opened Wrappers
  import opened Replication
  import opened Storage
  import opened Counters
  import opened Cluster
  import opened ClusterInvariants
  import opened Agreement
  import opened Runs
  import Limits
  import Quorum
  import Refinement

  // ---------------------------------------------------------------- the statement

  /** `more` continues the run `steps`, and new calls start at `leader` alone. */
  ghost predicate Continues(steps: seq<Step>, more: seq<Step>, leader: Node) {
    Exec(steps + more).Some? && forall k :: 0 <= k < |more| ==> ByLeader(leader, more[k])
  }

  /** No continuation ever makes two nodes disagree. */
  ghost predicate SafeUnder(steps: seq<Step>, leader: Node) {
    forall more :: Continues(steps, more, leader) ==> NoTwoNodesDisagree(Exec(steps + more).value)
  }

  // ---------------------------------------------------------------- enough knowledge suffices

  lemma {:induction false} HandOverLasts(steps: seq<Step>, more: seq<Step>, to: Node)
    requires Exec(steps).Some? && CanHandOver(Exec(steps).value, to) && Continues(steps, more, to)
    ensures CanHandOver(Exec(steps + more).value, to)
  {
    var all := steps + more;
    if more == [] {
      assert all == steps;
    } else {
      var init := more[..|more| - 1];
      assert all[..|all| - 1] == steps + init;
      HandOverLasts(steps, init, to);
      RunKeepsInv(steps + init);
      StepKeepsHandOver(Exec(steps + init).value, to, all[|all| - 1]);
    }
  }

  /** Whatever old messages are outstanding and old calls still announce, and even
      with calls of the new leader under way. */
  lemma HandOverSuffices(steps: seq<Step>, to: Node)
    requires Exec(steps).Some? && CanHandOver(Exec(steps).value, to)
    ensures SafeUnder(steps, to)
  {
    forall more | Continues(steps, more, to)
      ensures NoTwoNodesDisagree(Exec(steps + more).value)
    {
      HandOverLasts(steps, more, to);
      EnoughMeansAgreement(Exec(steps + more).value, to);
    }
  }

  // ---------------------------------------------------------------- and it is needed

  /** `more` leads from `s`, the end of `steps`, to `t`. */
  ghost predicate Reaches(steps: seq<Step>, s: State, more: seq<Step>, t: State, leader: Node) {
    Exec(steps) == Some(s) && Continues(steps, more, leader) && Exec(steps + more).value == t
  }

  lemma Nothing(steps: seq<Step>, s: State, leader: Node)
    requires Exec(steps) == Some(s)
    ensures Reaches(steps, s, [], s, leader)
  {
    assert steps + [] == steps;
  }

  lemma OneStep(steps: seq<Step>, s: State, step: Step, t: State, leader: Node)
    requires Exec(steps) == Some(s) && Follows(s, step, t) && ByLeader(leader, step)
    ensures Reaches(steps, s, [step], t, leader)
  {
    var longer := Extend(steps, s, step, t);
  }

  lemma Join(steps: seq<Step>, s: State, a: seq<Step>, t: State, b: seq<Step>, u: State, leader: Node)
    requires Reaches(steps, s, a, t, leader) && Reaches(steps + a, t, b, u, leader)
    ensures Reaches(steps, s, a + b, u, leader)
  {
    assert steps + (a + b) == (steps + a) + b;
  }

  function Running(s: State): set<nat> {
    set c | c in s.calls && !s.calls[c].phase.Done?
  }

  lemma Dies(s: State, c: nat) returns (t: State)
    requires c in Running(s)
    ensures Follows(s, Die(c), t) && Running(t) == Running(s) - {c} && t.head == s.head && t.ledgers == s.ledgers
  {
    t := With(s, c, s.calls[c].(phase := Done(NoAnswer)));
    OnlyMoves(s, Die(c), s.calls[c].(phase := Done(NoAnswer)));
  }

  /** Every call may die where it stands. */
  lemma {:induction false} AllDie(steps: seq<Step>, s: State, leader: Node) returns (more: seq<Step>, t: State)
    requires Exec(steps) == Some(s)
    ensures Reaches(steps, s, more, t, leader)
    ensures Running(t) == {} && t.head == s.head && t.ledgers == s.ledgers
    decreases |Running(s)|
  {
    if Running(s) == {} {
      more, t := [], s;
      Nothing(steps, s, leader);
    } else {
      var c :| c in Running(s);
      var s1 := Dies(s, c);
      OneStep(steps, s, Die(c), s1, leader);
      more, t := AllDie(steps + [Die(c)], s1, leader);
      Join(steps, s, [Die(c)], s1, more, t, leader);
      more := [Die(c)] + more;
    }
  }

  lemma {:induction false} Unused(ids: set<nat>) returns (bound: nat)
    ensures forall id :: id in ids ==> id < bound
  {
    if ids == {} {
      bound := 0;
    } else {
      var id :| id in ids;
      var most := Unused(ids - {id});
      bound := if most <= id then id + 1 else most;
      assert forall k :: k in ids ==> k == id || k in ids - {id};
    }
  }

  /** A call without followers is its own quorum: on a healthy store it decides
      whatever is not decided yet. */
  lemma AloneDecides(l: Ledger, e: LogEntry, target: Status)
    requires ValidEntry(e) && e.status.Pending? && Terminal(target)
    requires !Has(l, e.paymentID) || StatusIs(l, e.paymentID, Pending)
    ensures StatusIs(Quorum.Course(l, e, 0, 0, target, HEALTHY, true, HEALTHY).1, e.paymentID, target)
  {
    assert e.(status := Pending) == e;
  }

  /** What a new call may decide. */
  ghost predicate IsOpen(s: State, to: Node, kind: Kind, p: PaymentId) {
    !HasRow(s, to, p) || (kind.Cancel? && RowIs(s, to, p, Pending))
  }

  lemma Starts(steps: seq<Step>, s: State, to: Node, kind: Kind, p: PaymentId) returns (step: Step, t: State)
    requires Exec(steps) == Some(s) && Running(s) == {} && p != "" && IsOpen(s, to, kind, p)
    ensures ByLeader(to, step) && Follows(s, step, t) && step.Start? && step.call in t.calls
    ensures t.calls[step.call] == NewCall(kind, to, Limits.TEMPLATE.(paymentID := p))
    ensures t.head == s.head && t.ledgers == s.ledgers
    ensures Admission(t, t.calls[step.call]).Admitted?
  {
    var c := Unused(s.calls.Keys);
    step := Start(c, kind, to, Limits.TEMPLATE.(paymentID := p));
    assert forall d :: d in s.calls ==> d !in Running(s);
    t := Apply(s, step);
  }

  lemma AssignedKeeps(s: State, c: nat) returns (t: State)
    requires c in s.calls
    ensures t == Limits.Assigned(s, c)
    ensures c in t.calls && t.calls[c].phase.Indexed? && t.ledgers == s.ledgers
    ensures t.calls[c].kind == s.calls[c].kind && t.calls[c].node == s.calls[c].node
    ensures t.calls[c].entry.paymentID == s.calls[c].entry.paymentID
  {
    t := Limits.Assigned(s, c);
  }

  lemma GetsIndex(steps: seq<Step>, s: State, c: nat, leader: Node) returns (more: seq<Step>, t: State)
    requires Exec(steps) == Some(s) && c in s.calls && s.calls[c].phase.Started?
    requires Admission(s, s.calls[c]).Admitted? && 0 <= s.head.value < TWO_TO_THE_63 - 1
    ensures Reaches(steps, s, more, t, leader)
    ensures c in t.calls && t.calls[c].phase.Indexed? && t.ledgers == s.ledgers
    ensures t.calls[c].kind == s.calls[c].kind && t.calls[c].node == s.calls[c].node
    ensures t.calls[c].entry.paymentID == s.calls[c].entry.paymentID
  {
    t := AssignedKeeps(s, c);
    var longer := Limits.AssignmentSteps(steps, s, c);
    more := [Admit(c), ReadHead(c), GetHead(c), SetHead(c)];
  }

  lemma DecidesAlone(steps: seq<Step>, s: State, c: nat, leader: Node) returns (more: seq<Step>, t: State)
    requires Exec(steps) == Some(s) && c in s.calls && s.calls[c].phase.Indexed?
    requires var n, p := s.calls[c].node, s.calls[c].entry.paymentID; !HasRow(s, n, p) || RowIs(s, n, p, Pending)
    ensures Reaches(steps, s, more, t, leader)
    ensures RowIs(t, s.calls[c].node, s.calls[c].entry.paymentID, Target(s.calls[c].kind))
  {
    RunKeepsInv(steps);
    more, t := Refinement.CallIsARun(steps, s, c, [], [], HEALTHY, true, HEALTHY);
    AloneDecides(LedgerOf(s, s.calls[c].node), s.calls[c].entry, Target(s.calls[c].kind));
  }

  /** While nothing else runs, a new call for an open payment decides it. */
  lemma NewCallDecides(steps: seq<Step>, s: State, to: Node, kind: Kind, p: PaymentId)
    returns (more: seq<Step>, t: State)
    requires Exec(steps) == Some(s) && Running(s) == {} && 0 <= s.head.value < TWO_TO_THE_63 - 1
    requires p != "" && IsOpen(s, to, kind, p)
    ensures Reaches(steps, s, more, t, to) && RowIs(t, to, p, Target(kind))
  {
    var start, s1 := Starts(steps, s, to, kind, p);
    OneStep(steps, s, start, s1, to);
    var index, s2 := GetsIndex(steps + [start], s1, start.call, to);
    Join(steps, s, [start], s1, index, s2, to);
    var decide;
    decide, t := DecidesAlone(steps + ([start] + index), s2, start.call, to);
    Join(steps, s, [start] + index, s2, decide, t, to);
    more := [start] + index + decide;
  }

  lemma Contradicts(steps: seq<Step>, s: State, to: Node, kind: Kind, p: PaymentId)
    returns (more: seq<Step>, t: State)
    requires Exec(steps) == Some(s) && 0 <= s.head.value < TWO_TO_THE_63 - 1
    requires p != "" && IsOpen(s, to, kind, p)
    ensures Reaches(steps, s, more, t, to) && RowIs(t, to, p, Target(kind))
  {
    var dying, dead := AllDie(steps, s, to);
    more, t := NewCallDecides(steps + dying, dead, to, kind, p);
    Join(steps, s, dying, dead, more, t, to);
    more := dying + more;
  }

  lemma RowsDiffer(s: State, m: Node, n: Node, p: PaymentId, u: Status, v: Status)
    requires RowIs(s, m, p, u) && RowIs(s, n, p, v) && Terminal(u) && Terminal(v) && u != v
    ensures !NoTwoNodesDisagree(s)
  {
    assert HasRow(s, m, p) && HasRow(s, n, p);
  }

  lemma KeepsRow(steps: seq<Step>, s: State, more: seq<Step>, t: State, m: Node, p: PaymentId, u: Status)
    requires Exec(steps) == Some(s) && Exec(steps + more) == Some(t) && Terminal(u) && RowIs(s, m, p, u)
    ensures RowIs(t, m, p, u)
  {
    RunGrows(steps, more);
    RowsStay(s, t, m, p);
  }

  /** A terminal row that `to` is not ready for can be contradicted: by a cancel,
      or by a payment if the row is CANCELED. */
  lemma UnreadyIsUnsafe(steps: seq<Step>, s: State, to: Node, m: Node, p: PaymentId, u: Status)
    returns (more: seq<Step>)
    requires Exec(steps) == Some(s) && Inv(s) && s.head.value < TWO_TO_THE_63 - 1
    requires Terminal(u) && RowIs(s, m, p, u) && !ReadyFor(s, to, p, u)
    ensures Continues(steps, more, to) && !NoTwoNodesDisagree(Exec(steps + more).value)
  {
    if HasRow(s, to, p) && !RowIs(s, to, p, Pending) {
      more := [];
      Nothing(steps, s, to);
      assert RowWellFormed(LedgerOf(s, to), p);
      RowsDiffer(s, m, to, p, u, LedgerOf(s, to).rows[p].status);
    } else {
      assert RowWellFormed(LedgerOf(s, m), p);
      var kind, t := if u.Canceled? then Pay else Cancel, s;
      more, t := Contradicts(steps, s, to, kind, p);
      KeepsRow(steps, s, more, t, m, p, u);
      RowsDiffer(t, m, to, p, u, Target(kind));
    }
  }

  /** In any state a run reaches, whatever calls are under way. */
  lemma HandOverNeedsKnowledge(steps: seq<Step>, to: Node)
    requires Exec(steps).Some? && Exec(steps).value.head.value < TWO_TO_THE_63 - 1
    requires SafeUnder(steps, to)
    ensures KnowsEnough(Exec(steps).value, to)
  {
    var s := Exec(steps).value;
    RunKeepsInv(steps);
    forall m, p | HasRow(s, m, p) && Terminal(LedgerOf(s, m).rows[p].status)
      ensures ReadyFor(s, to, p, LedgerOf(s, m).rows[p].status)
    {
      if !ReadyFor(s, to, p, LedgerOf(s, m).rows[p].status) {
        var more := UnreadyIsUnsafe(steps, s, to, m, p, LedgerOf(s, m).rows[p].status);
      }
    }
  }

  /** Once every old call is concluded, a handover to `to` is safe, whatever
      messages are outstanding, if and only if every payment that is final on some
      node is final with that status on `to`, or is CANCELED there and PENDING on
      `to`. */
  lemma HandOverIsSafeIff(steps: seq<Step>, to: Node)
    requires Exec(steps).Some? && Exec(steps).value.head.value < TWO_TO_THE_63 - 1
    requires forall c :: c in Exec(steps).value.calls ==> Concluded(Exec(steps).value.calls[c].phase)
    ensures SafeUnder(steps, to) <==> KnowsEnough(Exec(steps).value, to)
  {
    if KnowsEnough(Exec(steps).value, to) {
      HandOverSuffices(steps, to);
    } else if SafeUnder(steps, to) {
      HandOverNeedsKnowledge(steps, to);
    }
  }
}
