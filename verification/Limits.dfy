/** Runs that show what the protocol does not guarantee: agreement when either
    handover condition is missing, and single payment of a blank id. */
module Limits {
  import opened Wrappers
  import opened Replication
  import opened Storage
  import opened Counters
  import opened Cluster
  import opened ClusterInvariants
  import opened Runs
  import Agreement
  import ClusterTheorems

  lemma AssignSteps(s: State, c: nat) returns (s1: State, s2: State, s3: State, t: State)
    requires c in s.calls && s.calls[c].phase.Started? && Admission(s, s.calls[c]).Admitted?
    requires 0 <= s.head.value < TWO_TO_THE_63 - 1
    ensures Follows(s, Admit(c), s1) && Follows(s1, ReadHead(c), s2) && Follows(s2, GetHead(c), s3)
    ensures t == Assigned(s, c) && s3.head == s.head
    ensures s3 == With(s, c, s.calls[c].(phase := HeadGot(s.head.value + 1, s.head.version)))
  {
    var call := s.calls[c];
    var next := s.head.value + 1;
    s1 := With(s, c, call.(phase := Admitted));
    OnlyMoves(s, Admit(c), call.(phase := Admitted));
    s2 := With(s1, c, call.(phase := HeadRead(next)));
    OnlyMoves(s1, ReadHead(c), call.(phase := HeadRead(next)));
    s3 := With(s2, c, call.(phase := HeadGot(next, s.head.version)));
    OnlyMoves(s2, GetHead(c), call.(phase := HeadGot(next, s.head.version)));
    t := Assigned(s, c);
    assert s3.calls == s.calls[c := call.(phase := HeadGot(next, s.head.version))];
  }

  /** The state after an undisturbed call took the next index. */
  function Assigned(s: State, c: nat): State
    requires c in s.calls
  {
    var next := s.head.value + 1;
    With(s, c, s.calls[c].(phase := Indexed, indexed := true, entry := s.calls[c].entry.(logIndex := next)))
    .(head := Register(next, s.head.version + 1), issued := s.issued[next := c])
  }

  lemma SetHeadAssigns(s: State, s3: State, c: nat)
    requires c in s.calls
    requires s3 == With(s, c, s.calls[c].(phase := HeadGot(s.head.value + 1, s.head.version)))
    ensures Follows(s3, SetHead(c), Assigned(s, c))
  {
  }

  lemma AssignmentSteps(steps: seq<Step>, s: State, c: nat) returns (longer: seq<Step>)
    requires Exec(steps) == Some(s)
    requires c in s.calls && s.calls[c].phase.Started? && Admission(s, s.calls[c]).Admitted?
    requires 0 <= s.head.value < TWO_TO_THE_63 - 1
    ensures Exec(longer) == Some(Assigned(s, c))
    ensures longer == steps + [Admit(c), ReadHead(c), GetHead(c), SetHead(c)]
  {
    var s1, s2, s3, t := AssignSteps(s, c);
    SetHeadAssigns(s, s3, c);
    longer := Extend(steps, s, Admit(c), s1);
    longer := Extend(longer, s1, ReadHead(c), s2);
    longer := Extend(longer, s2, GetHead(c), s3);
    longer := Extend(longer, s3, SetHead(c), t);
  }

  lemma AssignIndex(steps: seq<Step>, s: State, c: nat) returns (longer: seq<Step>)
    requires Exec(steps) == Some(s)
    requires c in s.calls && s.calls[c].phase.Started? && Admission(s, s.calls[c]).Admitted?
    requires 0 <= s.head.value < TWO_TO_THE_63 - 1
    ensures steps <= longer && Exec(longer) == Some(Assigned(s, c))
  {
    longer := AssignmentSteps(steps, s, c);
  }

  /** From Indexed, over followers f and g: the local row is inserted and the
      requests go out. */
  function Asked(s: State, c: nat, f: Node, g: Node): State
    requires c in s.calls
  {
    With(s, c, s.calls[c].(phase := Collecting, followers := [f, g]))
    .(ledgers := Written(s, Inserts(s.calls[c].node, s.calls[c].entry)),
      net := s.net + {AppendRequest(c, 0), AppendRequest(c, 1)})
  }

  lemma AskSteps(s: State, c: nat, f: Node, g: Node) returns (s1: State, s2: State)
    requires c in s.calls && s.calls[c].phase.Indexed?
    ensures Follows(s, ListFollowers(c, [f, g]), s1) && Follows(s1, InsertLocal(c, true), s2)
    ensures s2 == With(s, c, s.calls[c].(phase := Appended, followers := [f, g]))
                  .(ledgers := Written(s, Inserts(s.calls[c].node, s.calls[c].entry)))
  {
    var call := s.calls[c];
    s1 := With(s, c, call.(phase := Ready, followers := [f, g]));
    OnlyMoves(s, ListFollowers(c, [f, g]), call.(phase := Ready, followers := [f, g]));
    var b := call.(phase := Appended, followers := [f, g]);
    s2 := With(s1, c, b).(ledgers := Written(s, Inserts(call.node, call.entry)));
    MovesAndWrites(s1, InsertLocal(c, true), b, Inserts(call.node, call.entry));
    assert s2.calls == s.calls[c := b];
  }

  lemma CheckAsks(s: State, s2: State, c: nat, f: Node, g: Node)
    requires c in s.calls
    requires s2 == With(s, c, s.calls[c].(phase := Appended, followers := [f, g]))
                   .(ledgers := Written(s, Inserts(s.calls[c].node, s.calls[c].entry)))
    ensures Follows(s2, CheckLocal(c, true), Asked(s, c, f, g))
  {
    var step := CheckLocal(c, true);
    assert HasRow(s2, s.calls[c].node, s.calls[c].entry.paymentID);
    CheckSends(s2, c, f, g);
    assert s2.calls[c := Moved(s2, step)] == Asked(s, c, f, g).calls;
  }

  lemma CheckSends(s2: State, c: nat, f: Node, g: Node)
    requires Enabled(s2, CheckLocal(c, true)) && s2.calls[c].followers == [f, g]
    ensures Sent(s2, CheckLocal(c, true)) == {AppendRequest(c, 0), AppendRequest(c, 1)}
    ensures Moved(s2, CheckLocal(c, true)) == s2.calls[c].(phase := Collecting)
  {
  }

  lemma Ask(steps: seq<Step>, s: State, c: nat, f: Node, g: Node) returns (longer: seq<Step>)
    requires Exec(steps) == Some(s) && c in s.calls && s.calls[c].phase.Indexed?
    ensures steps <= longer && Exec(longer) == Some(Asked(s, c, f, g))
  {
    var s1, s2 := AskSteps(s, c, f, g);
    CheckAsks(s, s2, c, f, g);
    longer := Extend(steps, s, ListFollowers(c, [f, g]), s1);
    longer := Extend(longer, s1, InsertLocal(c, true), s2);
    longer := Extend(longer, s2, CheckLocal(c, true), Asked(s, c, f, g));
  }

  /** The first of two followers acknowledges, the second cannot be reached. */
  function Acked(s: State, c: nat): State
    requires c in s.calls && |s.calls[c].followers| == 2
  {
    With(s, c, s.calls[c].(phase := Quorate, heard := {0, 1}, acks := {0}))
    .(ledgers := Written(s, Inserts(s.calls[c].followers[0], s.calls[c].entry)), net := s.net + {AppendAck(c, 0)})
  }

  lemma FollowerAppends(s: State, c: nat)
    requires c in s.calls && |s.calls[c].followers| == 2 && AppendRequest(c, 0) in s.net
    ensures Follows(s, FollowerAppend(c, 0, s.calls[c].entry.logicalTime),
                    s.(ledgers := Acked(s, c).ledgers, net := Acked(s, c).net))
  {
  }

  lemma AckSteps(s1: State, c: nat) returns (s2: State, s3: State, t: State)
    requires c in s1.calls && s1.calls[c].phase.Collecting? && |s1.calls[c].followers| == 2
    requires s1.calls[c].heard == s1.calls[c].acks == {} && AppendAck(c, 0) in s1.net
    ensures Follows(s1, HearAppend(c, 0, true), s2) && Follows(s2, HearAppend(c, 1, false), s3)
    ensures Follows(s3, Decide(c), t)
    ensures t == With(s1, c, s1.calls[c].(phase := Quorate, heard := {0, 1}, acks := {0}))
  {
    var call := s1.calls[c];
    s2 := With(s1, c, call.(heard := {0}, acks := {0}));
    s3 := With(s2, c, call.(heard := {0, 1}, acks := {0}));
    HearSteps(s1, c, s2, s3);
    t := With(s3, c, call.(phase := Quorate, heard := {0, 1}, acks := {0}));
    OnlyMoves(s3, Decide(c), call.(phase := Quorate, heard := {0, 1}, acks := {0}));
    assert t.calls == s1.calls[c := call.(phase := Quorate, heard := {0, 1}, acks := {0})];
  }

  lemma HearSteps(s1: State, c: nat, s2: State, s3: State)
    requires c in s1.calls && s1.calls[c].phase.Collecting? && |s1.calls[c].followers| == 2
    requires s1.calls[c].heard == s1.calls[c].acks == {} && AppendAck(c, 0) in s1.net
    requires s2 == With(s1, c, s1.calls[c].(heard := {0}, acks := {0}))
    requires s3 == With(s2, c, s1.calls[c].(heard := {0, 1}, acks := {0}))
    ensures Follows(s1, HearAppend(c, 0, true), s2) && Follows(s2, HearAppend(c, 1, false), s3)
  {
    var call := s1.calls[c];
    assert {} + {0} == {0} && {0} + {1} == {0, 1};
    OnlyMoves(s1, HearAppend(c, 0, true), call.(heard := {0}, acks := {0}));
    OnlyMoves(s2, HearAppend(c, 1, false), call.(heard := {0, 1}, acks := {0}));
  }

  lemma OneAck(steps: seq<Step>, s: State, c: nat) returns (longer: seq<Step>)
    requires Exec(steps) == Some(s)
    requires c in s.calls && s.calls[c].phase.Collecting? && |s.calls[c].followers| == 2
    requires s.calls[c].heard == s.calls[c].acks == {} && AppendRequest(c, 0) in s.net
    ensures steps <= longer && Exec(longer) == Some(Acked(s, c))
  {
    var s1 := s.(ledgers := Acked(s, c).ledgers, net := Acked(s, c).net);
    FollowerAppends(s, c);
    var s2, s3, t := AckSteps(s1, c);
    longer := Extend(steps, s, FollowerAppend(c, 0, s.calls[c].entry.logicalTime), s1);
    longer := Extend(longer, s1, HearAppend(c, 0, true), s2);
    longer := Extend(longer, s2, HearAppend(c, 1, false), s3);
    longer := Extend(longer, s3, Decide(c), t);
  }

  /** The call's own row is finalized and reported. */
  function Finalized(s: State, c: nat): State
    requires c in s.calls
  {
    With(s, c, s.calls[c].(phase := Announcing(0)))
    .(ledgers := Written(s, Updates(s.calls[c].node, s.calls[c].entry.paymentID, Target(s.calls[c].kind))))
  }

  lemma FinalizeSteps(s: State, c: nat) returns (s1: State)
    requires c in s.calls && s.calls[c].phase.Quorate?
    requires RowIs(s, s.calls[c].node, s.calls[c].entry.paymentID, Pending) || TargetHeld(s, c)
    ensures Follows(s, UpdateLocal(c, true), s1) && Follows(s1, ReportLocal(c, true), Finalized(s, c))
    ensures TargetHeld(Finalized(s, c), c)
  {
    var call := s.calls[c];
    s1 := With(s, c, call.(phase := Updated)).(ledgers := Finalized(s, c).ledgers);
    MovesAndWrites(s, UpdateLocal(c, true), call.(phase := Updated),
                   Updates(call.node, call.entry.paymentID, Target(call.kind)));
    OnlyMoves(s1, ReportLocal(c, true), call.(phase := Announcing(0)));
    assert s1.calls[c := call.(phase := Announcing(0))] == Finalized(s, c).calls;
  }

  /** From an issued index to a quorum, over followers f and g of which f
      acknowledges. */
  function Collected(s: State, c: nat, f: Node, g: Node): State
    requires c in s.calls
  {
    Acked(Asked(s, c, f, g), c)
  }

  lemma Collect(steps: seq<Step>, s: State, c: nat, f: Node, g: Node) returns (longer: seq<Step>)
    requires Exec(steps) == Some(s) && CanSucceed(s, c, f)
    ensures steps <= longer && Exec(longer) == Some(Collected(s, c, f, g))
  {
    longer := Ask(steps, s, c, f, g);
    longer := OneAck(longer, Asked(s, c, f, g), c);
  }

  /** And on to local success. */
  function Succeeded(s: State, c: nat, f: Node, g: Node): State
    requires c in s.calls
  {
    Finalized(Collected(s, c, f, g), c)
  }

  lemma FinalizeLocally(steps: seq<Step>, s: State, c: nat) returns (longer: seq<Step>)
    requires Exec(steps) == Some(s) && c in s.calls && s.calls[c].phase.Quorate?
    requires RowIs(s, s.calls[c].node, s.calls[c].entry.paymentID, Pending) || TargetHeld(s, c)
    ensures steps <= longer && Exec(longer) == Some(Finalized(s, c))
  {
    var s1 := FinalizeSteps(s, c);
    longer := Extend(steps, s, UpdateLocal(c, true), s1);
    longer := Extend(longer, s1, ReportLocal(c, true), Finalized(s, c));
  }

  lemma Succeed(steps: seq<Step>, s: State, c: nat, f: Node, g: Node) returns (longer: seq<Step>)
    requires Exec(steps) == Some(s) && CanSucceed(s, c, f)
    ensures steps <= longer && Exec(longer) == Some(Succeeded(s, c, f, g))
  {
    var s1 := Collected(s, c, f, g);
    longer := Collect(steps, s, c, f, g);
    assert RowIs(s1, s1.calls[c].node, s1.calls[c].entry.paymentID, Pending) || TargetHeld(s1, c);
    longer := FinalizeLocally(longer, s1, c);
  }

  ghost predicate CanSucceed(s: State, c: nat, f: Node) {
    && c in s.calls && s.calls[c].phase.Indexed? && s.calls[c].entry.status.Pending?
    && s.calls[c].heard == s.calls[c].acks == {}
    && f != s.calls[c].node
    && (!HasRow(s, s.calls[c].node, s.calls[c].entry.paymentID)
        || RowIs(s, s.calls[c].node, s.calls[c].entry.paymentID, Pending) || TargetHeld(s, c))
  }

  /** What success looks like: only the rows on the caller and on f are touched. */
  lemma SuccessFacts(s: State, c: nat, f: Node, g: Node)
    requires CanSucceed(s, c, f)
    ensures var t := Succeeded(s, c, f, g);
            && TargetHeld(t, c) && t.head == s.head
            && t.calls == s.calls[c := Announced(s.calls[c], f, g)]
            && (forall n :: n != s.calls[c].node && n != f ==> LedgerOf(t, n) == LedgerOf(s, n))
  {
  }

  function Announced(call: Call, f: Node, g: Node): Call {
    call.(phase := Announcing(0), followers := [f, g], heard := {0, 1}, acks := {0})
  }

  lemma Begin(steps: seq<Step>, s: State, c: nat, kind: Kind, node: Node, e: LogEntry) returns (longer: seq<Step>)
    requires Exec(steps) == Some(s) && Enabled(s, Start(c, kind, node, e))
    ensures steps <= longer && Exec(longer) == Some(With(s, c, NewCall(kind, node, e)))
  {
    assert s.net + {} == s.net;
    longer := Extend(steps, s, Start(c, kind, node, e), With(s, c, NewCall(kind, node, e)));
  }

  // ---------------------------------------------------------------- two leaders

  const TEMPLATE := LogEntry(0, 1, "A", "A", "p", 10.0, "USD", Pending, 1, 1)

  const OTHER := TEMPLATE.(leaderID := "C")

  /** The first leader, A, pays p with B's acknowledgement, up to the quorum. */
  lemma FirstLeaderSteps() returns (steps: seq<Step>, s: State)
    ensures Exec(steps) == Some(s)
    ensures RowIs(s, "A", "p", Pending) && !HasRow(s, "C", "p") && s.head.value == 1
    ensures Agreement.KnowsAll(s, "C")
    ensures s.calls.Keys == {0} && s.calls[0].phase == Quorate && s.calls[0].kind.Pay?
    ensures s.calls[0].node == "A" && s.calls[0].entry.paymentID == "p"
    ensures s.calls[0].followers == ["B", "C"] && s.calls[0].acks == {0}
  {
    var s1 := With(INIT, 0, NewCall(Pay, "A", TEMPLATE));
    assert Exec([]) == Some(INIT);
    steps := Begin([], INIT, 0, Pay, "A", TEMPLATE);
    steps := AssignIndex(steps, s1, 0);
    var s2 := Assigned(s1, 0);
    steps := Collect(steps, s2, 0, "B", "C");
    s := Collected(s2, 0, "B", "C");
    NothingIsTerminal(s2, s);
  }

  lemma NothingIsTerminal(s: State, t: State)
    requires 0 in s.calls && s.calls[0].entry.status.Pending? && s.ledgers == map[]
    requires t == Collected(s, 0, "B", "C")
    ensures Agreement.KnowsAll(t, "C")
  {
  }

  /** The second leader, C, has no row for p and cancels it with B's acknowledgement. */
  lemma SecondLeaderSteps(before: seq<Step>, s: State) returns (steps: seq<Step>, t: State)
    requires Exec(before) == Some(s) && s.calls.Keys == {0} && s.head.value == 1 && !HasRow(s, "C", "p")
    ensures before <= steps && Exec(steps) == Some(t)
    ensures RowIs(t, "C", "p", Canceled) && LedgerOf(t, "A") == LedgerOf(s, "A")
    ensures t.calls.Keys == {0, 1} && t.calls[0] == s.calls[0] && t.calls[1].node == "C"
    ensures t.calls[1].phase == Announcing(0) && t.calls[1].followers == ["B", "A"] && t.calls[1].acks == {0}
  {
    var s1 := With(s, 1, NewCall(Cancel, "C", OTHER));
    steps := Begin(before, s, 1, Cancel, "C", OTHER);
    steps := AssignIndex(steps, s1, 1);
    var s2 := Assigned(s1, 1);
    steps := Succeed(steps, s2, 1, "B", "A");
    SuccessFacts(s2, 1, "B", "A");
    t := Succeeded(s2, 1, "B", "A");
  }

  lemma CommitFirst(before: seq<Step>, s: State) returns (steps: seq<Step>, t: State)
    requires Exec(before) == Some(s) && 0 in s.calls && s.calls[0].phase.Quorate? && s.calls[0].kind.Pay?
    requires s.calls[0].node == "A" && s.calls[0].entry.paymentID == "p" && RowIs(s, "A", "p", Pending)
    ensures before <= steps && Exec(steps) == Some(t)
    ensures RowIs(t, "A", "p", Committed) && LedgerOf(t, "C") == LedgerOf(s, "C") && t.head == s.head
    ensures t.calls == s.calls[0 := s.calls[0].(phase := Announcing(0))]
    ensures s.calls.Keys == {0} ==> t.calls.Keys == {0} && Agreement.Callers(t, "C")
  {
    steps := FinalizeLocally(before, s, 0);
    t := Finalized(s, 0);
  }

  /** Both calls were successful, each with two of the three nodes. */
  ghost predicate TwoMajorities(s: State) {
    && s.calls.Keys == {0, 1} && s.calls[0].followers == ["B", "C"] && s.calls[1].followers == ["B", "A"]
    && forall c :: c in s.calls ==> Successful(s.calls[c].phase) && s.calls[c].acks == {0}
  }

  lemma Disagrees(s: State)
    requires RowIs(s, "A", "p", Committed) && RowIs(s, "C", "p", Canceled)
    requires s.calls.Keys == {0, 1} && s.calls[0].phase == s.calls[1].phase == Announcing(0)
    requires s.calls[0].followers == ["B", "C"] && s.calls[1].followers == ["B", "A"]
    requires s.calls[0].acks == s.calls[1].acks == {0}
    ensures TwoMajorities(s) && !Agreement.NoTwoNodesDisagree(s)
  {
  }

  /** A handover to a node that does not know everything: A commits p, its call
      is settled, and C, which has not heard of p, cancels it. */
  lemma LeadersCanDisagree() returns (before: seq<Step>, s1: State, steps: seq<Step>, s: State)
    ensures before <= steps && Exec(before) == Some(s1) && Exec(steps) == Some(s)
    ensures Agreement.Callers(s1, "C") && s1.calls.Keys == {0} && s.calls.Keys == {0, 1} && s.calls[1].node == "C"
    ensures TwoMajorities(s) && !Agreement.NoTwoNodesDisagree(s)
  {
    var s0;
    before, s0 := FirstLeaderSteps();
    before, s1 := CommitFirst(before, s0);
    steps, s := SecondLeaderSteps(before, s1);
    Disagrees(s);
  }

  /** A handover while an old call can still decide: C knows every terminal
      status, since there is none, and cancels p; then A's call commits it. */
  lemma UndecidedCallBreaksAgreement() returns (before: seq<Step>, s1: State, steps: seq<Step>, s: State)
    ensures before <= steps && Exec(before) == Some(s1) && Exec(steps) == Some(s)
    ensures Agreement.KnowsAll(s1, "C") && s1.calls.Keys == {0} && s.calls.Keys == {0, 1} && s.calls[1].node == "C"
    ensures TwoMajorities(s) && !Agreement.NoTwoNodesDisagree(s)
  {
    before, s1 := FirstLeaderSteps();
    var s2;
    steps, s2 := SecondLeaderSteps(before, s1);
    steps, s := CommitFirst(steps, s2);
    Disagrees(s);
  }

  // ---------------------------------------------------------------- blank payment ids

  /** Two pay calls on one node that paid the same payment. */
  ghost predicate BothPaid(s: State, p: PaymentId, c: nat, d: nat) {
    && c in s.calls && d in s.calls && s.calls[c].node == s.calls[d].node
    && s.calls[c].kind.Pay? && s.calls[c].entry.paymentID == p && Successful(s.calls[c].phase)
    && s.calls[d].kind.Pay? && s.calls[d].entry.paymentID == p && Successful(s.calls[d].phase)
  }

  ghost predicate NeverPaidTwice(p: PaymentId) {
    forall steps, c, d :: Exec(steps).Some? && BothPaid(Exec(steps).value, p, c, d) ==> c == d
  }

  /** A payment id of spaces takes no lock: two pay calls for it on one node can
      both be replicated, under different indices. */
  lemma BlankIdsCanBePaidTwice(p: PaymentId) returns (steps: seq<Step>, s: State)
    requires p != "" && TrimSpace(p) == ""
    ensures Exec(steps) == Some(s) && BothPaid(s, p, 0, 1)
    ensures s.calls[0].entry.logIndex != s.calls[1].entry.logIndex
  {
    var e := TEMPLATE.(paymentID := p);
    var s1 := With(INIT, 0, NewCall(Pay, "A", e));
    assert Exec([]) == Some(INIT);
    steps := Begin([], INIT, 0, Pay, "A", e);
    var s2 := With(s1, 1, NewCall(Pay, "A", e));
    steps := Begin(steps, s1, 1, Pay, "A", e);
    var s3 := Assigned(s2, 0);
    steps := AssignIndex(steps, s2, 0);
    var s4 := Assigned(s3, 1);
    steps := AssignIndex(steps, s3, 1);
    s := BothSucceed(s4);
    steps := BothSucceedSteps(steps, s4);
  }

  function BothSucceed(s: State): State
    requires 0 in s.calls && 1 in s.calls
  {
    Succeeded(Succeeded(s, 0, "B", "C"), 1, "B", "C")
  }

  lemma BothSucceedSteps(before: seq<Step>, s: State) returns (steps: seq<Step>)
    requires Exec(before) == Some(s) && 0 in s.calls && 1 in s.calls
    requires CanSucceed(s, 0, "B") && CanSucceed(s, 1, "B")
    requires s.calls[0].kind == s.calls[1].kind && s.calls[0].node == s.calls[1].node
    requires s.calls[0].entry.paymentID == s.calls[1].entry.paymentID
    ensures Exec(steps) == Some(BothSucceed(s))
    ensures BothSucceed(s).calls
            == s.calls[0 := Announced(s.calls[0], "B", "C")][1 := Announced(s.calls[1], "B", "C")]
  {
    steps := Succeed(before, s, 0, "B", "C");
    SuccessFacts(s, 0, "B", "C");
    var s1 := Succeeded(s, 0, "B", "C");
    steps := Succeed(steps, s1, 1, "B", "C");
    SuccessFacts(s1, 1, "B", "C");
  }

  /** The payment lock keeps exactly its promise: a payment is never paid twice
      on one node, in any run, if and only if its id is not blank. An empty id is
      rejected before any call. */
  lemma NeverPaidTwiceIffNotBlank(p: PaymentId)
    ensures NeverPaidTwice(p) <==> p == "" || TrimSpace(p) != ""
  {
    if p == "" || TrimSpace(p) != "" {
      forall steps, c, d | Exec(steps).Some? && BothPaid(Exec(steps).value, p, c, d)
        ensures c == d
      {
        RunKeepsInv(steps);
        assert ValidEntry(Exec(steps).value.calls[c].entry);
        ClusterTheorems.PaidAtMostOnce(steps, c, d);
      }
    } else {
      var steps, s := BlankIdsCanBePaidTwice(p);
      assert BothPaid(Exec(steps).value, p, 0, 1);
    }
  }
}
