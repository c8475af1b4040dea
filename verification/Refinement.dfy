/** The sequential handlers are runs of the cluster: whatever they do to a ledger
    and to their call, some enabled steps do. */
module Refinement {
  import opened Wrappers
  import opened Replication
  import opened Storage
  import opened Counters
  import opened Cluster
  import opened ClusterInvariants
  import opened Runs
  import CatchUp
  import FollowerHandlers
  import Quorum

  /** The append handler, for one entry, is FollowerAppend or nothing; it
      acknowledges exactly the entries that pass, and then it was FollowerAppend. */
  lemma HandlerIsFollowerAppend(s: State, c: nat, to: nat, clock: nat, m: FollowerHandlers.Incoming)
    requires Addresses(s, c, to) && AppendRequest(c, to) in s.net && m.entry == s.calls[c].entry
    ensures var n := s.calls[c].followers[to];
            var start := FollowerHandlers.Progress(LedgerOf(s, n), clock, 0, false);
            var end := FollowerHandlers.Handle(start, m);
            var step := FollowerAppend(c, to, Wrap64(end.clock));
            && Enabled(s, step)
            && (end.ledger == LedgerOf(s, n) || end.ledger == LedgerOf(Apply(s, step), n))
            && (!end.stopped ==> end.ledger == LedgerOf(Apply(s, step), n))
            && (!end.stopped <==> FollowerHandlers.Passes(m))
  {
    var n := s.calls[c].followers[to];
    FollowerHandlers.HandleOutcome(FollowerHandlers.Progress(LedgerOf(s, n), clock, 0, false), m);
  }

  // ---------------------------------------------------------------- the catch-up loop

  /** `t` is `s` with another ledger for `n`. */
  ghost predicate OnlyLedgerChanges(s: State, t: State, n: Node, l: Ledger) {
    t == s.(ledgers := t.ledgers) && LedgerOf(t, n) == l && forall o :: o != n ==> LedgerOf(t, o) == LedgerOf(s, o)
  }

  lemma CopyInserted(s: State, n: Node, m: Message) returns (t: State)
    requires m.CatchUpRow? && m in s.net && ValidEntry(CopiedEntry(m))
    ensures Follows(s, CatchUpInsert(n, m), t)
    ensures OnlyLedgerChanges(s, t, n, Insert(LedgerOf(s, n), CopiedEntry(m)))
  {
    OnlyWrites(s, CatchUpInsert(n, m), Inserts(n, CopiedEntry(m)));
    t := s.(ledgers := Written(s, Inserts(n, CopiedEntry(m))));
  }

  lemma CopyUpdated(s: State, n: Node, m: Message) returns (t: State)
    requires m.CatchUpRow? && m in s.net
    ensures Follows(s, CatchUpUpdate(n, m), t)
    ensures OnlyLedgerChanges(s, t, n, Update(LedgerOf(s, n), m.row.paymentID, CatchUp.EntryOf(m.row).status))
  {
    var w := Updates(n, m.row.paymentID, CatchUp.EntryOf(m.row).status);
    OnlyWrites(s, CatchUpUpdate(n, m), w);
    t := s.(ledgers := Written(s, w));
  }

  lemma ThenUpdated(before: seq<Step>, s: State, inserted: State, n: Node, m: Message, l: Ledger)
    returns (steps: seq<Step>, t: State)
    requires Exec(before + [CatchUpInsert(n, m)]) == Some(inserted) && OnlyLedgerChanges(s, inserted, n, l)
    requires m.CatchUpRow? && m in inserted.net
    ensures |steps| == 2 && Exec(before + steps) == Some(t)
    ensures OnlyLedgerChanges(s, t, n, Update(l, m.row.paymentID, CatchUp.EntryOf(m.row).status))
  {
    t := CopyUpdated(inserted, n, m);
    steps := [CatchUpInsert(n, m), CatchUpUpdate(n, m)];
    var after := Extend(before + [CatchUpInsert(n, m)], inserted, CatchUpUpdate(n, m), t);
    assert after == before + steps;
  }

  /** A turn of the catch-up loop, whichever database calls fail, is a run of at
      most CatchUpInsert and CatchUpUpdate, and changes nothing else. */
  lemma LoopTurnIsCatchUp(before: seq<Step>, s: State, n: Node, m: Message, insertDb: Db, finalDb: Db)
    returns (steps: seq<Step>, t: State)
    requires Exec(before) == Some(s) && m.CatchUpRow? && m in s.net
    ensures Exec(before + steps) == Some(t) && |steps| <= 2
    ensures OnlyLedgerChanges(s, t, n, CatchUp.ApplyEntry(LedgerOf(s, n), CatchUp.EntryOf(m.row), insertDb, finalDb).0)
  {
    var l, e := LedgerOf(s, n), CatchUp.EntryOf(m.row);
    CatchUp.TurnStatements(l, e, insertDb, finalDb);
    if !ValidEntry(CopiedEntry(m)) || !insertDb.exec {
      steps, t := [], s;
      assert before + [] == before;
    } else {
      t := CopyInserted(s, n, m);
      steps := [CatchUpInsert(n, m)];
      var after := Extend(before, s, CatchUpInsert(n, m), t);
      if finalDb.exec {
        steps, t := ThenUpdated(before, s, t, n, m, Insert(l, CopiedEntry(m)));
      }
    }
  }

  // ---------------------------------------------------------------- the replication call

  /** Where the call's machine stands when the sequential call ends. */
  function PhaseAfter(stage: Quorum.Stage, kind: Kind): Phase {
    if stage.Decided? then Announcing(0) else if kind.Pay? then Failing else Done(Refused)
  }

  /** The steps lead from `s` to `t` and start nothing, and call `c` stays the
      call it was. */
  ghost predicate Leads(before: seq<Step>, s: State, steps: seq<Step>, t: State, c: nat) {
    && Exec(before) == Some(s) && Exec(before + steps) == Some(t) && SameCall(s, t, c)
    && forall k :: 0 <= k < |steps| ==> !steps[k].Start?
  }

  ghost predicate SameCall(s: State, t: State, c: nat) {
    && c in s.calls && c in t.calls
    && t.calls[c].kind == s.calls[c].kind && t.calls[c].node == s.calls[c].node && t.calls[c].entry == s.calls[c].entry
  }

  lemma Nowhere(before: seq<Step>, s: State, c: nat)
    requires Exec(before) == Some(s) && c in s.calls
    ensures Leads(before, s, [], s, c)
  {
    assert before + [] == before;
  }

  lemma Then(before: seq<Step>, s: State, steps: seq<Step>, t: State, step: Step, u: State, c: nat)
    returns (longer: seq<Step>)
    requires Leads(before, s, steps, t, c) && Follows(t, step, u) && SameCall(t, u, c) && !step.Start?
    ensures longer == steps + [step] && Leads(before, s, longer, u, c)
  {
    longer := steps + [step];
    var all := Extend(before + steps, t, step, u);
    assert all == before + longer;
  }

  function OwnLedger(s: State, c: nat): Ledger
    requires c in s.calls
  {
    LedgerOf(s, s.calls[c].node)
  }

  /** The local append's statements. */
  lemma AppendStatements(l: Ledger, e: LogEntry, insertDb: Db, existsDb: bool)
    requires ValidEntry(e) && e.status.Pending?
    ensures var (l1, present) := Quorum.AppendOrFind(l, e, insertDb, existsDb);
            && l1 == (if insertDb.exec then Insert(l, e) else l)
            && (present ==> Has(l1, e.paymentID))
  {
    assert e.(status := Pending) == e;
  }

  lemma Inserted(s: State, c: nat, ran: bool) returns (t: State)
    requires c in s.calls && s.calls[c].phase.Ready?
    ensures Follows(s, InsertLocal(c, ran), t) && SameCall(s, t, c)
    ensures t.calls[c] == s.calls[c].(phase := Appended, faulted := s.calls[c].faulted || !ran)
    ensures OwnLedger(t, c) == if ran then Insert(OwnLedger(s, c), s.calls[c].entry) else OwnLedger(s, c)
  {
    var b := s.calls[c].(phase := Appended, faulted := s.calls[c].faulted || !ran);
    var w := if ran then Inserts(b.node, b.entry) else NoWrite;
    MovesAndWrites(s, InsertLocal(c, ran), b, w);
    t := With(s, c, b).(ledgers := Written(s, w));
  }

  lemma ListAndInsert(before: seq<Step>, s: State, c: nat, urls: seq<Node>, ran: bool)
    returns (steps: seq<Step>, t: State)
    requires Exec(before) == Some(s) && c in s.calls && s.calls[c].phase.Indexed?
    ensures Leads(before, s, steps, t, c)
    ensures t.calls[c].phase == Appended && t.calls[c].followers == urls
    ensures t.calls[c].heard == s.calls[c].heard && t.calls[c].acks == s.calls[c].acks
    ensures OwnLedger(t, c) == if ran then Insert(OwnLedger(s, c), s.calls[c].entry) else OwnLedger(s, c)
  {
    var b := s.calls[c].(phase := Ready, followers := urls);
    var listed := With(s, c, b);
    Nowhere(before, s, c);
    OnlyMoves(s, ListFollowers(c, urls), b);
    steps := Then(before, s, [], s, ListFollowers(c, urls), listed, c);
    t := Inserted(listed, c, ran);
    steps := Then(before, s, steps, listed, InsertLocal(c, ran), t, c);
  }

  /** The append requests are out, and the results in `heard` have arrived. */
  ghost predicate Asking(t: State, c: nat, followers: nat, heard: seq<Quorum.AppendResult>) {
    && c in t.calls && t.calls[c].phase.Collecting? && |t.calls[c].followers| == followers
    && HasRow(t, t.calls[c].node, t.calls[c].entry.paymentID)
    && (forall i :: 0 <= i < followers ==> AppendRequest(c, i) in t.net)
    && (forall i :: i in t.calls[c].heard <==> HasArrived(heard, i))
    && t.calls[c].acks == Quorum.Acked(heard)
  }

  ghost predicate HasArrived(heard: seq<Quorum.AppendResult>, i: nat) {
    exists k :: 0 <= k < |heard| && heard[k].index == i
  }

  lemma Checked(s: State, c: nat, ok: bool) returns (t: State)
    requires c in s.calls && s.calls[c].phase.Appended? && s.calls[c].heard == s.calls[c].acks == {}
    requires ok ==> HasRow(s, s.calls[c].node, s.calls[c].entry.paymentID)
    ensures Follows(s, CheckLocal(c, ok), t) && SameCall(s, t, c)
    ensures t.ledgers == s.ledgers
    ensures if ok then Asking(t, c, |s.calls[c].followers|, [])
            else t.calls[c].phase == AfterFailure(s.calls[c].kind)
  {
    t := Apply(s, CheckLocal(c, ok));
  }

  lemma FollowerAnswers(s: State, c: nat, i: nat) returns (t: State)
    requires Addresses(s, c, i) && AppendRequest(c, i) in s.net
    requires HasRow(s, s.calls[c].node, s.calls[c].entry.paymentID)
    ensures Follows(s, FollowerAppend(c, i, s.calls[c].entry.logicalTime), t)
    ensures t.calls == s.calls && OwnLedger(t, c) == OwnLedger(s, c)
    ensures t.net == s.net + {AppendAck(c, i)}
  {
    t := Apply(s, FollowerAppend(c, i, s.calls[c].entry.logicalTime));
  }

  lemma Heard(s: State, c: nat, i: nat, ack: bool) returns (t: State)
    requires Enabled(s, HearAppend(c, i, ack))
    ensures Follows(s, HearAppend(c, i, ack), t)
    ensures t == With(s, c, s.calls[c].(heard := s.calls[c].heard + {i},
                                        acks := s.calls[c].acks + if ack then {i} else {}))
  {
    var b := s.calls[c].(heard := s.calls[c].heard + {i}, acks := s.calls[c].acks + if ack then {i} else {});
    OnlyMoves(s, HearAppend(c, i, ack), b);
    t := With(s, c, b);
  }

  lemma ArrivedOneMore(arrivals: seq<Quorum.AppendResult>, k: nat)
    requires k < |arrivals|
    requires forall i, j :: 0 <= i < j < |arrivals| ==> arrivals[i].index != arrivals[j].index
    ensures forall i :: HasArrived(arrivals[..k + 1], i) <==> HasArrived(arrivals[..k], i) || i == arrivals[k].index
    ensures !HasArrived(arrivals[..k], arrivals[k].index)
  {
    assert arrivals[..k + 1] == arrivals[..k] + [arrivals[k]];
    forall i
      ensures HasArrived(arrivals[..k + 1], i) <==> HasArrived(arrivals[..k], i) || i == arrivals[k].index
    {
      if i == arrivals[k].index {
        assert arrivals[..k + 1][k].index == i;
      }
      if HasArrived(arrivals[..k], i) {
        var j :| 0 <= j < k && arrivals[..k][j].index == i;
        assert arrivals[..k + 1][j].index == i;
      }
    }
  }

  /** A result is heard, given that its acknowledgement, if it is one, is out. */
  lemma HearResult(s: State, c: nat, followers: nat, arrivals: seq<Quorum.AppendResult>, k: nat) returns (t: State)
    requires Quorum.Complete(arrivals, followers) && k < |arrivals|
    requires Asking(s, c, followers, arrivals[..k])
    requires arrivals[k].ack ==> AppendAck(c, arrivals[k].index) in s.net
    ensures Follows(s, HearAppend(c, arrivals[k].index, arrivals[k].ack), t) && SameCall(s, t, c)
    ensures Asking(t, c, followers, arrivals[..k + 1]) && t.ledgers == s.ledgers
  {
    ArrivedOneMore(arrivals, k);
    Quorum.AckedTakesOneMore(arrivals, k);
    t := Heard(s, c, arrivals[k].index, arrivals[k].ack);
  }

  /** Every arrival is a run of at most FollowerAppend and HearAppend. */
  lemma HearOne(before: seq<Step>, s: State, steps: seq<Step>, t: State, c: nat,
                followers: nat, arrivals: seq<Quorum.AppendResult>, k: nat)
    returns (longer: seq<Step>, u: State)
    requires Quorum.Complete(arrivals, followers) && k < |arrivals|
    requires Leads(before, s, steps, t, c) && Asking(t, c, followers, arrivals[..k])
    ensures Leads(before, s, longer, u, c) && Asking(u, c, followers, arrivals[..k + 1])
    ensures OwnLedger(u, c) == OwnLedger(t, c)
  {
    var r := arrivals[k];
    var answered := t;
    longer := steps;
    if r.ack {
      answered := FollowerAnswers(t, c, r.index);
      longer := Then(before, s, longer, t, FollowerAppend(c, r.index, t.calls[c].entry.logicalTime), answered, c);
    }
    u := HearResult(answered, c, followers, arrivals, k);
    longer := Then(before, s, longer, answered, HearAppend(c, r.index, r.ack), u, c);
  }

  lemma {:induction false} HearAll(before: seq<Step>, s: State, steps: seq<Step>, t: State, c: nat,
                                   followers: nat, arrivals: seq<Quorum.AppendResult>, k: nat)
    returns (longer: seq<Step>, u: State)
    requires Quorum.Complete(arrivals, followers) && k <= |arrivals|
    requires Leads(before, s, steps, t, c) && Asking(t, c, followers, [])
    ensures Leads(before, s, longer, u, c) && Asking(u, c, followers, arrivals[..k])
    ensures OwnLedger(u, c) == OwnLedger(t, c)
  {
    if k == 0 {
      longer, u := steps, t;
    } else {
      var most, v := HearAll(before, s, steps, t, c, followers, arrivals, k - 1);
      longer, u := HearOne(before, s, most, v, c, followers, arrivals, k - 1);
    }
  }

  lemma {:induction false} ArrivedSize(arrivals: seq<Quorum.AppendResult>, heard: set<nat>)
    requires forall i, j :: 0 <= i < j < |arrivals| ==> arrivals[i].index != arrivals[j].index
    requires forall i :: i in heard <==> HasArrived(arrivals, i)
    ensures |heard| == |arrivals|
  {
    if arrivals == [] {
      assert heard == {};
    } else {
      var n := |arrivals| - 1;
      ArrivedOneMore(arrivals, n);
      assert arrivals[..n + 1] == arrivals;
      ArrivedSize(arrivals[..n], heard - {arrivals[n].index});
    }
  }

  function Range(n: nat): (r: set<nat>)
    ensures forall i: nat :: i in r <==> i < n
    ensures |r| == n
  {
    if n == 0 then {} else Range(n - 1) + {n - 1}
  }

  /** Once as many results arrived as there are followers, all have. */
  lemma AllHeard(heard: set<nat>, followers: nat, arrivals: seq<Quorum.AppendResult>)
    requires Quorum.Complete(arrivals, followers)
    requires forall i :: i in heard <==> HasArrived(arrivals, i)
    ensures forall i :: 0 <= i < followers ==> i in heard
  {
    ArrivedSize(arrivals, heard);
    Quorum.SubsetIsAll(heard, Range(followers));
  }

  lemma Decides(s: State, c: nat) returns (t: State)
    requires Enabled(s, Decide(c))
    ensures Follows(s, Decide(c), t) && SameCall(s, t, c) && t.ledgers == s.ledgers
    ensures t.calls[c].phase == if HasQuorum(s.calls[c]) then Quorate else AfterFailure(s.calls[c].kind)
  {
    var b := s.calls[c].(phase := if HasQuorum(s.calls[c]) then Quorate else AfterFailure(s.calls[c].kind));
    OnlyMoves(s, Decide(c), b);
    t := With(s, c, b);
  }

  lemma Reported(s: State, c: nat, ok: bool) returns (t: State)
    requires Enabled(s, ReportLocal(c, ok))
    ensures Follows(s, ReportLocal(c, ok), t) && SameCall(s, t, c) && t.ledgers == s.ledgers
    ensures t.calls[c].phase == if ok then Announcing(0) else AfterFailure(s.calls[c].kind)
  {
    var b := s.calls[c].(phase := if ok then Announcing(0) else AfterFailure(s.calls[c].kind),
                         faulted := s.calls[c].faulted || Faults(s, ReportLocal(c, ok)));
    OnlyMoves(s, ReportLocal(c, ok), b);
    t := With(s, c, b);
  }

  /** The local finalizer is UpdateLocal and ReportLocal, or the first alone. */
  lemma FinalizeSteps(before: seq<Step>, s: State, steps: seq<Step>, t: State, c: nat, db: Db)
    returns (longer: seq<Step>, u: State)
    requires Leads(before, s, steps, t, c) && t.calls[c].phase.Quorate?
    ensures Leads(before, s, longer, u, c)
    ensures var (l, out) := Finalize(OwnLedger(t, c), t.calls[c].entry.paymentID, Target(t.calls[c].kind), db);
            && OwnLedger(u, c) == l
            && u.calls[c].phase == if out.Ok? then Announcing(0) else AfterFailure(t.calls[c].kind)
  {
    var call := t.calls[c];
    var p, target := call.entry.paymentID, Target(call.kind);
    var (l, out) := Finalize(OwnLedger(t, c), p, target, db);
    if !db.exec {
      var b := call.(phase := AfterFailure(call.kind), faulted := true);
      OnlyMoves(t, UpdateLocal(c, false), b);
      u := With(t, c, b);
      longer := Then(before, s, steps, t, UpdateLocal(c, false), u, c);
    } else {
      var b := call.(phase := Updated);
      var w := Updates(call.node, p, target);
      var v := With(t, c, b).(ledgers := Written(t, w));
      MovesAndWrites(t, UpdateLocal(c, true), b, w);
      longer := Then(before, s, steps, t, UpdateLocal(c, true), v, c);
      u := Reported(v, c, out.Ok?);
      longer := Then(before, s, longer, v, ReportLocal(c, out.Ok?), u, c);
    }
  }

  /** From the requests to the end of the call. */
  lemma CollectAndFinalize(before: seq<Step>, s: State, steps: seq<Step>, t: State, c: nat,
                           followers: nat, arrivals: seq<Quorum.AppendResult>, db: Db)
    returns (longer: seq<Step>, u: State)
    requires Quorum.Complete(arrivals, followers)
    requires Leads(before, s, steps, t, c) && Asking(t, c, followers, [])
    ensures Leads(before, s, longer, u, c)
    ensures var call, reached := s.calls[c], Quorum.QuorumOf(|Quorum.Acked(arrivals)|, followers);
            var (l, out) := Finalize(OwnLedger(t, c), call.entry.paymentID, Target(call.kind), db);
            && OwnLedger(u, c) == (if reached then l else OwnLedger(t, c))
            && u.calls[c].phase == if reached && out.Ok? then Announcing(0) else AfterFailure(call.kind)
  {
    var collected, decided;
    longer, collected := HearAll(before, s, steps, t, c, followers, arrivals, |arrivals|);
    assert arrivals[..|arrivals|] == arrivals;
    AllHeard(collected.calls[c].heard, followers, arrivals);
    decided := Decides(collected, c);
    longer := Then(before, s, longer, collected, Decide(c), decided, c);
    u := decided;
    if decided.calls[c].phase.Quorate? {
      longer, u := FinalizeSteps(before, s, longer, decided, c, db);
    }
  }

  /** A replication call by a handler that holds an index, whoever acknowledges,
      in whatever order, and whichever database calls fail, is a run of the
      cluster: the run ends with the ledger the call leaves and in the phase that
      the call's stage stands for. */
  lemma CallIsARun(before: seq<Step>, s: State, c: nat, urls: seq<Node>, arrivals: seq<Quorum.AppendResult>,
                   insertDb: Db, existsDb: bool, finalDb: Db)
    returns (steps: seq<Step>, t: State)
    requires Exec(before) == Some(s) && c in s.calls && s.calls[c].phase.Indexed?
    requires Quorum.Complete(arrivals, |urls|)
    ensures Leads(before, s, steps, t, c)
    ensures var call := s.calls[c];
            var (stage, after) := Quorum.Course(OwnLedger(s, c), call.entry, |Quorum.Acked(arrivals)|, |urls|,
                                                Target(call.kind), insertDb, existsDb, finalDb);
            OwnLedger(t, c) == after && t.calls[c].phase == PhaseAfter(stage, call.kind)
  {
    RunKeepsInv(before);
    assert Acknowledged(s, s.calls[c]);
    var e := s.calls[c].entry;
    AppendStatements(OwnLedger(s, c), e, insertDb, existsDb);
    var present := Quorum.AppendOrFind(OwnLedger(s, c), e, insertDb, existsDb).1;
    var appended;
    steps, appended := ListAndInsert(before, s, c, urls, insertDb.exec);
    t := Checked(appended, c, present);
    steps := Then(before, s, steps, appended, CheckLocal(c, present), t, c);
    if present {
      steps, t := CollectAndFinalize(before, s, steps, t, c, |urls|, arrivals, finalDb);
    }
  }

  // ---------------------------------------------------------------- a payment that fails

  lemma MarkFailed(s: State, c: nat, ran: bool) returns (t: State)
    requires c in s.calls && s.calls[c].phase.Failing?
    ensures Follows(s, FailLocal(c, ran), t) && SameCall(s, t, c) && t.calls[c].phase == Done(MarkedFailed)
    ensures OwnLedger(t, c) ==
            if ran then Update(OwnLedger(s, c), s.calls[c].entry.paymentID, Failed) else OwnLedger(s, c)
  {
    var b := s.calls[c].(phase := Done(MarkedFailed), faulted := s.calls[c].faulted || !ran);
    var w := if ran then Updates(b.node, b.entry.paymentID, Failed) else NoWrite;
    MovesAndWrites(s, FailLocal(c, ran), b, w);
    t := With(s, c, b).(ledgers := Written(s, w));
  }

  /** The pay handler's own part: whatever stage a payment stops at short of a
      decision, the handler tries to mark it FAILED, and that is its last step. */
  lemma UndecidedPayIsARun(before: seq<Step>, s: State, c: nat, urls: seq<Node>, arrivals: seq<Quorum.AppendResult>,
                           insertDb: Db, existsDb: bool, finalDb: Db, failDb: Db)
    returns (steps: seq<Step>, t: State)
    requires Exec(before) == Some(s) && c in s.calls && s.calls[c].phase.Indexed? && s.calls[c].kind.Pay?
    requires Quorum.Complete(arrivals, |urls|)
    requires var e := s.calls[c].entry;
             !Quorum.Course(OwnLedger(s, c), e, |Quorum.Acked(arrivals)|, |urls|, Committed,
                            insertDb, existsDb, finalDb).0.Decided?
    ensures Leads(before, s, steps, t, c) && t.calls[c].phase == Done(MarkedFailed)
    ensures var e := s.calls[c].entry;
            var after := Quorum.Course(OwnLedger(s, c), e, |Quorum.Acked(arrivals)|, |urls|, Committed,
                                       insertDb, existsDb, finalDb).1;
            OwnLedger(t, c) == Finalize(after, e.paymentID, Failed, failDb).0
  {
    var failing;
    steps, failing := CallIsARun(before, s, c, urls, arrivals, insertDb, existsDb, finalDb);
    t := MarkFailed(failing, c, failDb.exec);
    steps := Then(before, s, steps, failing, FailLocal(c, failDb.exec), t, c);
  }

  lemma NoQuorumFails(l: Ledger, e: LogEntry, acked: nat, followers: nat)
    requires ValidEntry(e) && e.status.Pending? && !Has(l, e.paymentID) && 2 * (1 + acked) <= 1 + followers
    ensures var (stage, after) := Quorum.Course(l, e, acked, followers, Committed, HEALTHY, true, HEALTHY);
            !stage.Decided? && StatusIs(Finalize(after, e.paymentID, Failed, HEALTHY).0, e.paymentID, Failed)
  {
    assert e.(status := Pending) == e;
  }

  /** So a new payment whose followers do not answer, on a healthy store, is not
      left PENDING: its row ends FAILED. */
  lemma UnansweredPaymentFails(before: seq<Step>, s: State, c: nat, urls: seq<Node>,
                               arrivals: seq<Quorum.AppendResult>)
    returns (steps: seq<Step>, t: State)
    requires Exec(before) == Some(s) && c in s.calls && s.calls[c].phase.Indexed? && s.calls[c].kind.Pay?
    requires !HasRow(s, s.calls[c].node, s.calls[c].entry.paymentID)
    requires Quorum.Complete(arrivals, |urls|) && 2 * (1 + |Quorum.Acked(arrivals)|) <= 1 + |urls|
    ensures Leads(before, s, steps, t, c) && t.calls[c].phase == Done(MarkedFailed)
    ensures RowIs(t, s.calls[c].node, s.calls[c].entry.paymentID, Failed)
  {
    RunKeepsInv(before);
    NoQuorumFails(OwnLedger(s, c), s.calls[c].entry, |Quorum.Acked(arrivals)|, |urls|);
    steps, t := UndecidedPayIsARun(before, s, c, urls, arrivals, HEALTHY, true, HEALTHY, HEALTHY);
  }

  // ---------------------------------------------------------------- the announcements

  /** Follower `i` can confirm the call's status: its row has it or is PENDING. */
  ghost predicate CanConfirm(s: State, c: nat, i: nat)
    requires Addresses(s, c, i)
  {
    var f, p := s.calls[c].followers[i], s.calls[c].entry.paymentID;
    RowIs(s, f, p, Pending) || RowIs(s, f, p, Target(s.calls[c].kind))
  }

  /** `t` keeps what the announcements of `s`'s call need. */
  ghost predicate Keeps(s: State, t: State, c: nat) {
    && SameCall(s, t, c) && t.calls[c].followers == s.calls[c].followers
    && OwnLedger(t, c) == OwnLedger(s, c) && TargetHeld(t, c)
    && (forall i :: 0 <= i < |s.calls[c].followers| && CanConfirm(s, c, i) ==> CanConfirm(t, c, i))
  }

  lemma KeepsOn(s: State, t: State, u: State, c: nat)
    requires Keeps(s, t, c) && Keeps(t, u, c)
    ensures Keeps(s, u, c)
  {
  }

  lemma SameLedgersKeep(s: State, t: State, c: nat)
    requires SameCall(s, t, c) && t.calls[c].followers == s.calls[c].followers
    requires t.ledgers == s.ledgers && TargetHeld(s, c)
    ensures Keeps(s, t, c)
  {
  }

  lemma Sends(s: State, c: nat) returns (t: State)
    requires Enabled(s, SendFinalize(c))
    ensures Follows(s, SendFinalize(c), t)
    ensures t == s.(net := s.net + {FinalizeRequest(c, s.calls[c].phase.told)})
  {
    t := s.(net := s.net + {FinalizeRequest(c, s.calls[c].phase.told)});
    assert Moved(s, SendFinalize(c)) == s.calls[c];
    assert s.calls[c := s.calls[c]] == s.calls;
  }

  lemma Confirms(s: State, c: nat, i: nat) returns (t: State)
    requires Enabled(s, FollowerUpdate(c, i)) && CanConfirm(s, c, i) && TargetHeld(s, c)
    ensures Follows(s, FollowerUpdate(c, i), t) && t == s.(ledgers := t.ledgers) && Keeps(s, t, c)
    ensures RowIs(t, s.calls[c].followers[i], s.calls[c].entry.paymentID, Target(s.calls[c].kind))
  {
    var w := Updates(s.calls[c].followers[i], s.calls[c].entry.paymentID, Target(s.calls[c].kind));
    OnlyWrites(s, FollowerUpdate(c, i), w);
    t := s.(ledgers := Written(s, w));
  }

  lemma Replies(s: State, c: nat, i: nat) returns (t: State)
    requires Enabled(s, FollowerReport(c, i))
    ensures Follows(s, FollowerReport(c, i), t) && t == s.(net := s.net + {FinalizeAck(c, i)})
  {
    t := s.(net := s.net + {FinalizeAck(c, i)});
  }

  lemma HearsReply(s: State, c: nat, ok: bool) returns (t: State)
    requires Enabled(s, HearFinalize(c, ok))
    ensures Follows(s, HearFinalize(c, ok), t)
    ensures var call := s.calls[c];
            t == With(s, c, call.(phase := Announcing(call.phase.told + 1),
                                  finals := call.finals + if ok then {call.phase.told} else {}))
  {
    var call := s.calls[c];
    var b := call.(phase := Announcing(call.phase.told + 1),
                   finals := call.finals + if ok then {call.phase.told} else {});
    assert ok || call.finals + {} == call.finals;
    OnlyMoves(s, HearFinalize(c, ok), b);
    t := With(s, c, b);
  }

  /** Follower `i` confirms. */
  lemma ConfirmSteps(before: seq<Step>, s: State, steps: seq<Step>, t: State, c: nat, i: nat)
    returns (longer: seq<Step>, u: State)
    requires Leads(before, s, steps, t, c) && Addresses(t, c, i) && FinalizeRequest(c, i) in t.net
    requires CanConfirm(t, c, i) && TargetHeld(t, c)
    ensures Leads(before, s, longer, u, c) && u.calls == t.calls && FinalizeAck(c, i) in u.net && Keeps(t, u, c)
  {
    var updated := Confirms(t, c, i);
    longer := Then(before, s, steps, t, FollowerUpdate(c, i), updated, c);
    u := Replies(updated, c, i);
    longer := Then(before, s, longer, updated, FollowerReport(c, i), u, c);
  }

  lemma SendSteps(before: seq<Step>, s: State, steps: seq<Step>, t: State, c: nat, k: nat)
    returns (longer: seq<Step>, u: State)
    requires Leads(before, s, steps, t, c) && t.calls[c].phase == Announcing(k)
    requires Addresses(t, c, k) && TargetHeld(t, c)
    ensures Leads(before, s, longer, u, c) && u.calls == t.calls && FinalizeRequest(c, k) in u.net && Keeps(t, u, c)
  {
    u := Sends(t, c);
    longer := Then(before, s, steps, t, SendFinalize(c), u, c);
    SameLedgersKeep(t, u, c);
  }

  lemma ReplySteps(before: seq<Step>, s: State, steps: seq<Step>, t: State, c: nat, k: nat, ok: bool)
    returns (longer: seq<Step>, u: State)
    requires Leads(before, s, steps, t, c) && t.calls[c].phase == Announcing(k)
    requires Addresses(t, c, k) && TargetHeld(t, c)
    requires ok ==> FinalizeAck(c, k) in t.net
    ensures Leads(before, s, longer, u, c) && Keeps(t, u, c)
    ensures u.calls[c] == t.calls[c].(phase := Announcing(k + 1), finals := t.calls[c].finals + if ok then {k} else {})
  {
    u := HearsReply(t, c, ok);
    longer := Then(before, s, steps, t, HearFinalize(c, ok), u, c);
    SameLedgersKeep(t, u, c);
  }

  lemma TellOne(before: seq<Step>, s: State, steps: seq<Step>, t: State, c: nat, k: nat, reply: bool)
    returns (longer: seq<Step>, u: State)
    requires Leads(before, s, steps, t, c) && t.calls[c].phase == Announcing(k)
    requires Addresses(t, c, k) && TargetHeld(t, c) && (reply ==> CanConfirm(t, c, k))
    ensures Leads(before, s, longer, u, c) && Keeps(t, u, c)
    ensures u.calls[c] == t.calls[c].(phase := Announcing(k + 1),
                                      finals := t.calls[c].finals + if reply then {k} else {})
  {
    var v;
    longer, v := SendSteps(before, s, steps, t, c, k);
    if reply {
      var sent := v;
      longer, v := ConfirmSteps(before, s, longer, sent, c, k);
      KeepsOn(t, sent, v, c);
    }
    longer, u := ReplySteps(before, s, longer, v, c, k, reply);
    KeepsOn(t, v, u, c);
  }

  /** The followers that confirm. */
  function Confirming(replies: seq<bool>, k: nat): set<nat> {
    set i: nat | i < k && i < |replies| && replies[i]
  }

  lemma ConfirmingOneMore(finals: set<nat>, replies: seq<bool>, k: nat)
    requires 0 < k <= |replies|
    ensures finals + Confirming(replies, k - 1) + (if replies[k - 1] then {k - 1} else {})
            == finals + Confirming(replies, k)
  {
  }

  lemma {:induction false} TellAll(before: seq<Step>, s: State, c: nat, replies: seq<bool>, k: nat)
    returns (steps: seq<Step>, t: State)
    requires Exec(before) == Some(s) && c in s.calls && s.calls[c].phase == Announcing(0) && TargetHeld(s, c)
    requires |replies| == |s.calls[c].followers| && k <= |replies|
    requires forall i :: 0 <= i < |replies| && replies[i] ==> CanConfirm(s, c, i)
    ensures Leads(before, s, steps, t, c) && Keeps(s, t, c)
    ensures t.calls[c] == s.calls[c].(phase := Announcing(k), finals := s.calls[c].finals + Confirming(replies, k))
  {
    if k == 0 {
      steps, t := [], s;
      Nowhere(before, s, c);
      SameLedgersKeep(s, s, c);
      assert s.calls[c].finals + Confirming(replies, 0) == s.calls[c].finals;
    } else {
      var most, v := TellAll(before, s, c, replies, k - 1);
      assert replies[k - 1] ==> CanConfirm(s, c, k - 1);
      steps, t := TellOne(before, s, most, v, c, k - 1, replies[k - 1]);
      KeepsOn(s, v, t, c);
      ConfirmingOneMore(s.calls[c].finals, replies, k);
    }
  }

  lemma Finishes(s: State, c: nat) returns (t: State)
    requires Enabled(s, Finish(c))
    ensures Follows(s, Finish(c), t) && t == With(s, c, s.calls[c].(phase := Done(OkReplicated)))
  {
    OnlyMoves(s, Finish(c), s.calls[c].(phase := Done(OkReplicated)));
    t := With(s, c, s.calls[c].(phase := Done(OkReplicated)));
  }

  /** The announcements of a successful call are a run of the cluster, for any
      followers that confirm, as long as their rows let them: it ends with an OK, the
      flags of exactly those followers set, and the caller's ledger as it was. */
  lemma AnnouncementsAreARun(before: seq<Step>, s: State, c: nat, replies: seq<bool>)
    returns (steps: seq<Step>, t: State)
    requires Exec(before) == Some(s) && c in s.calls && s.calls[c].phase == Announcing(0)
    requires |replies| == |s.calls[c].followers|
    requires forall i :: 0 <= i < |replies| && replies[i] ==> CanConfirm(s, c, i)
    ensures Leads(before, s, steps, t, c)
    ensures t.calls[c].phase == Done(OkReplicated) && OwnLedger(t, c) == OwnLedger(s, c)
    ensures t.calls[c].finals == s.calls[c].finals + Confirming(replies, |replies|)
  {
    RunKeepsInv(before);
    assert Good(s, s.calls[c]);
    var told;
    steps, told := TellAll(before, s, c, replies, |replies|);
    t := Finishes(told, c);
    steps := Then(before, s, steps, told, Finish(c), t, c);
  }
}
