/** When the nodes' ledgers agree: in every run exactly when the calls' own
    decisions do, under one leader always, and across leaders when each handover
    meets conditions that the code itself does not enforce
    (internal/replication/service.go, internal/api/handlers.go). */
module Agreement {
  import opened Wrappers
  import opened Replication
  import opened Storage
  import opened Cluster
  import opened ClusterInvariants

  // ---------------------------------------------------------------- the statements

  /** Node `n` holds every terminal status that is held anywhere. */
  ghost predicate KnowsAll(s: State, n: Node) {
    forall m, p :: HasRow(s, m, p) && Terminal(LedgerOf(s, m).rows[p].status) ==>
                     RowIs(s, n, p, LedgerOf(s, m).rows[p].status)
  }

  ghost predicate NoTwoNodesDisagree(s: State) {
    forall m, n, p :: HasRow(s, m, p) && HasRow(s, n, p)
                      && Terminal(LedgerOf(s, m).rows[p].status) && Terminal(LedgerOf(s, n).rows[p].status) ==>
                        LedgerOf(s, m).rows[p].status == LedgerOf(s, n).rows[p].status
  }

  /** New calls start at the leader. Any node may serve catch-up. */
  predicate ByLeader(leader: Node, step: Step) {
    step.Start? ==> step.node == leader
  }

  /** A cluster whose members follow one leader until it hands over. */
  datatype World = World(leader: Node, state: State)

  datatype Move = Work(step: Step) | HandOver(to: Node)

  /** The call's local outcome is settled: it is over, or telling its followers. */
  predicate Concluded(phase: Phase) {
    phase.Done? || phase.Announcing?
  }

  /** The calls that can still write locally are the leader's. */
  ghost predicate Callers(s: State, leader: Node) {
    forall c :: c in s.calls ==> Concluded(s.calls[c].phase) || s.calls[c].node == leader
  }

  /** Whatever node `n` decides from now on agrees with a row that is `u`: it has
      that status itself, or it holds the payment PENDING and `u` is CANCELED,
      since it refuses to pay a PENDING payment. */
  ghost predicate ReadyFor(s: State, n: Node, p: PaymentId, u: Status) {
    RowIs(s, n, p, u) || (u.Canceled? && RowIs(s, n, p, Pending))
  }

  ghost predicate KnowsEnough(s: State, n: Node) {
    forall m, p :: HasRow(s, m, p) && Terminal(LedgerOf(s, m).rows[p].status) ==>
                     ReadyFor(s, n, p, LedgerOf(s, m).rows[p].status)
  }

  /** Node `n` holds as PENDING a payment that is CANCELED elsewhere. */
  ghost predicate Behind(s: State, n: Node, p: PaymentId) {
    RowIs(s, n, p, Pending) && exists m :: RowIs(s, m, p, Canceled)
  }

  /** A pay call past admission that can still decide. */
  predicate Paying(call: Call) {
    call.kind.Pay? && !call.phase.Started? && !Concluded(call.phase)
  }

  ghost predicate PayClear(s: State, n: Node) {
    forall c :: c in s.calls && s.calls[c].node == n && Paying(s.calls[c]) ==> !Behind(s, n, s.calls[c].entry.paymentID)
  }

  /** Messages of any age may be outstanding, and concluded calls may go on
      announcing. PayClear speaks of running calls of `to` itself. */
  ghost predicate CanHandOver(s: State, to: Node) {
    KnowsEnough(s, to) && Callers(s, to) && PayClear(s, to)
  }

  ghost predicate CanMove(w: World, move: Move) {
    match move
    case Work(step) => ByLeader(w.leader, step) && Enabled(w.state, step)
    case HandOver(to) => CanHandOver(w.state, to)
  }

  function AfterMove(w: World, move: Move): World
    requires move.Work? ==> Enabled(w.state, move.step)
  {
    match move
    case Work(step) => w.(state := Apply(w.state, step))
    case HandOver(to) => w.(leader := to)
  }

  ghost predicate Run(worlds: seq<World>, moves: seq<Move>) {
    && |worlds| == |moves| + 1
    && worlds[0].state == INIT
    && forall k :: 0 <= k < |moves| ==> CanMove(worlds[k], moves[k]) && worlds[k + 1] == AfterMove(worlds[k], moves[k])
  }

  // ---------------------------------------------------------------- the invariant

  ghost predicate Led(s: State, leader: Node) {
    Inv(s) && KnowsAll(s, leader) && Callers(s, leader)
  }

  /** An UPDATE writes what the leader's row says, or it is the leader's own:
      what is on its way, however old, says what a node that knows everything says. */
  lemma UpdateFollowsLeader(s: State, leader: Node, step: Step)
    requires Net(s) && KnowsAll(s, leader) && Callers(s, leader)
    requires Enabled(s, step) && Effect(s, step).Updates?
    ensures var w := Effect(s, step); w.node == leader || RowIs(s, leader, w.pid, w.target)
  {
    match step
    case FollowerUpdate(c, i) =>
      assert Holds(s, FinalizeRequest(c, i));
      assert HasRow(s, s.calls[c].node, s.calls[c].entry.paymentID);
    case CatchUpUpdate(_, m) =>
      assert Holds(s, m);
      assert HasRow(s, m.source, m.row.paymentID);
    case _ =>
  }

  /** Knowledge after a write whose updates follow the leader. */
  lemma KnowledgeStays(s: State, w: Write, t: State, leader: Node)
    requires KnowsAll(s, leader) && Grows(s, t) && t.ledgers == Written(s, w) && Admissible(w)
    requires w.Inserts? ==> w.entry.status.Pending?
    requires w.Updates? ==> w.node == leader || RowIs(s, leader, w.pid, w.target)
    ensures KnowsAll(t, leader)
  {
  }

  lemma StepKeepsKnowledge(s: State, leader: Node, step: Step)
    requires Led(s, leader) && Enabled(s, step) && Grows(s, Apply(s, step))
    ensures KnowsAll(Apply(s, step), leader)
  {
    EffectIsAdmissible(s, step);
    InsertsArePending(s, step);
    if Effect(s, step).Updates? {
      UpdateFollowsLeader(s, leader, step);
    }
    KnowledgeStays(s, Effect(s, step), Apply(s, step), leader);
  }

  lemma ConcludedStays(s: State, step: Step)
    requires Enabled(s, step) && Moves(step) && !step.Start? && Concluded(s.calls[step.call].phase)
    ensures Concluded(NextPhase(s, step))
  {
  }

  lemma CallersFollow(s: State, t: State, leader: Node, c: nat, b: Call)
    requires Callers(s, leader) && t.calls == s.calls[c := b]
    requires b.node == leader || (c in s.calls && b.node == s.calls[c].node
                                  && (Concluded(s.calls[c].phase) ==> Concluded(b.phase)))
    ensures Callers(t, leader)
  {
  }

  lemma StepKeepsCallers(s: State, leader: Node, step: Step)
    requires Callers(s, leader) && Enabled(s, step) && ByLeader(leader, step)
    ensures Callers(Apply(s, step), leader)
  {
    if Moves(step) {
      if step.Start? {
        CallersFollow(s, Apply(s, step), leader, step.call, NewCall(step.kind, step.node, step.entry));
      } else {
        MovedFrame(s, step);
        if Concluded(s.calls[step.call].phase) {
          ConcludedStays(s, step);
        }
        CallersFollow(s, Apply(s, step), leader, step.call, Moved(s, step));
      }
    }
  }

  lemma StepKeepsLed(s: State, leader: Node, step: Step)
    requires Led(s, leader) && Enabled(s, step) && ByLeader(leader, step)
    ensures Led(Apply(s, step), leader)
  {
    StepKeepsInv(s, step);
    StepKeepsKnowledge(s, leader, step);
    StepKeepsCallers(s, leader, step);
  }

  lemma InitLed(leader: Node)
    ensures Led(INIT, leader)
  {
  }

  // ---------------------------------------------------------------- knowing enough

  /** Another node already has the status, or the leader decides it, and then not
      against a cancel that it is behind on. */
  ghost predicate Authorised(s: State, leader: Node, w: Write)
    requires w.Updates?
  {
    || (exists m :: RowIs(s, m, w.pid, w.target))
    || (w.node == leader && (w.target.Canceled? || !Behind(s, leader, w.pid)))
  }

  lemma UpdateIsAuthorised(s: State, leader: Node, step: Step)
    requires Calls(s) && Net(s) && CanHandOver(s, leader) && Enabled(s, step) && Effect(s, step).Updates?
    ensures Authorised(s, leader, Effect(s, step))
  {
    match step
    case FollowerUpdate(c, i) =>
      assert Holds(s, FinalizeRequest(c, i));
    case CatchUpUpdate(_, m) =>
      assert Holds(s, m);
    case UpdateLocal(c, _) =>
      assert Good(s, s.calls[c]);
    case FailLocal(c, _) =>
      assert Good(s, s.calls[c]);
    case _ =>
  }

  lemma RelayedIsReady(s: State, leader: Node, m: Node, p: PaymentId, u: Status)
    requires KnowsEnough(s, leader) && RowIs(s, m, p, u) && Terminal(u)
    ensures ReadyFor(s, leader, p, u)
  {
    assert HasRow(s, m, p);
  }

  /** The write `w` makes a row terminal only as the leader's knowledge allows. */
  lemma WrittenIsReady(s: State, w: Write, t: State, leader: Node, m: Node)
    requires KnowsEnough(s, leader) && t.ledgers == Written(s, w) && Admissible(w)
    requires w.Updates? && Authorised(s, leader, w) && RowIs(s, w.node, w.pid, Pending)
    requires Terminal(w.target) && RowIs(s, m, w.pid, Canceled) && w.node == leader
    ensures w.target.Canceled?
  {
    assert Behind(s, leader, w.pid);
    if exists o :: RowIs(s, o, w.pid, w.target) {
      var o :| RowIs(s, o, w.pid, w.target);
      RelayedIsReady(s, leader, o, w.pid, w.target);
    }
  }

  lemma EnoughStays(s: State, w: Write, t: State, leader: Node)
    requires KnowsEnough(s, leader) && Grows(s, t) && t.ledgers == Written(s, w) && Admissible(w)
    requires w.Inserts? ==> w.entry.status.Pending?
    requires w.Updates? ==> Authorised(s, leader, w)
    ensures KnowsEnough(t, leader)
  {
    forall m, p | HasRow(t, m, p) && Terminal(LedgerOf(t, m).rows[p].status)
      ensures ReadyFor(t, leader, p, LedgerOf(t, m).rows[p].status)
    {
      EnoughStaysAt(s, w, t, leader, m, p);
    }
  }

  lemma EnoughStaysAt(s: State, w: Write, t: State, leader: Node, m: Node, p: PaymentId)
    requires KnowsEnough(s, leader) && Grows(s, t) && t.ledgers == Written(s, w) && Admissible(w)
    requires w.Inserts? ==> w.entry.status.Pending?
    requires w.Updates? ==> Authorised(s, leader, w)
    requires HasRow(t, m, p) && Terminal(LedgerOf(t, m).rows[p].status)
    ensures ReadyFor(t, leader, p, LedgerOf(t, m).rows[p].status)
  {
    var u := LedgerOf(t, m).rows[p].status;
    RowsStay(s, t, leader, p);
    WrittenRow(s, w, t, m, p);
    if HasRow(s, leader, p) {
      WrittenRow(s, w, t, leader, p);
    }
    if RowIs(s, m, p, u) {
      RelayedIsReady(s, leader, m, p, u);
      if w.Updates? && w.node == leader && w.pid == p && RowIs(s, leader, p, Pending) {
        WrittenIsReady(s, w, t, leader, m);
      }
    } else if w.node != leader {
      var o :| RowIs(s, o, p, u);
      RelayedIsReady(s, leader, o, p, u);
    }
  }

  lemma BehindBefore(s: State, w: Write, t: State, leader: Node, p: PaymentId)
    requires KnowsEnough(s, leader) && Grows(s, t) && t.ledgers == Written(s, w)
    requires w.Inserts? ==> w.entry.status.Pending?
    requires w.Updates? ==> Authorised(s, leader, w)
    ensures Behind(t, leader, p) ==> Behind(s, leader, p)
  {
    if Behind(t, leader, p) {
      var m :| RowIs(t, m, p, Canceled);
      WrittenRow(s, w, t, m, p);
      RowsStay(s, t, leader, p);
      var o := m;
      if !RowIs(s, m, p, Canceled) {
        o :| RowIs(s, o, p, Canceled);
      }
      RelayedIsReady(s, leader, o, p, Canceled);
    }
  }

  /** Admission refuses to pay what is PENDING. */
  lemma MovedPaysClear(s: State, leader: Node, step: Step)
    requires PayClear(s, leader) && Enabled(s, step) && Moves(step) && !step.Start?
    ensures var b := Moved(s, step);
            b.node == leader && Paying(b) ==> !Behind(s, leader, b.entry.paymentID)
  {
    MovedFrame(s, step);
    if s.calls[step.call].phase.Started? {
      FirstPhases(s, step);
    } else if Concluded(s.calls[step.call].phase) {
      ConcludedStays(s, step);
    }
  }

  lemma PayClearFollows(s: State, t: State, leader: Node, c: nat, b: Call)
    requires PayClear(s, leader) && t.calls == s.calls[c := b]
    requires b.node == leader && Paying(b) ==> !Behind(s, leader, b.entry.paymentID)
    requires forall p :: Behind(t, leader, p) ==> Behind(s, leader, p)
    ensures PayClear(t, leader)
  {
  }

  lemma StepKeepsPayClear(s: State, leader: Node, step: Step)
    requires PayClear(s, leader) && Enabled(s, step)
    requires forall p :: Behind(Apply(s, step), leader, p) ==> Behind(s, leader, p)
    ensures PayClear(Apply(s, step), leader)
  {
    if Moves(step) {
      if step.Start? {
        PayClearFollows(s, Apply(s, step), leader, step.call, NewCall(step.kind, step.node, step.entry));
      } else {
        MovedPaysClear(s, leader, step);
        PayClearFollows(s, Apply(s, step), leader, step.call, Moved(s, step));
      }
    }
  }

  lemma StepKeepsHandOver(s: State, leader: Node, step: Step)
    requires Inv(s) && CanHandOver(s, leader) && Enabled(s, step) && ByLeader(leader, step)
    ensures Inv(Apply(s, step)) && CanHandOver(Apply(s, step), leader)
  {
    var t, w := Apply(s, step), Effect(s, step);
    StepKeepsInv(s, step);
    EffectIsAdmissible(s, step);
    InsertsArePending(s, step);
    if w.Updates? {
      UpdateIsAuthorised(s, leader, step);
    }
    EnoughStays(s, w, t, leader);
    forall p
      ensures Behind(t, leader, p) ==> Behind(s, leader, p)
    {
      BehindBefore(s, w, t, leader, p);
    }
    StepKeepsCallers(s, leader, step);
    StepKeepsPayClear(s, leader, step);
  }

  // ---------------------------------------------------------------- the theorems

  /** Step `k` of the run is a call's own UPDATE, and it takes effect: it makes
      the call's PENDING row `target`. */
  ghost predicate DecidesAt(steps: seq<Step>, k: nat, p: PaymentId, target: Status) {
    && k < |steps| && Exec(steps[..k]).Some? && Enabled(Exec(steps[..k]).value, steps[k])
    && (steps[k].UpdateLocal? || steps[k].FailLocal?)
    && var w := Effect(Exec(steps[..k]).value, steps[k]);
       w.Updates? && w.pid == p && w.target == target && RowIs(Exec(steps[..k]).value, w.node, p, Pending)
  }

  ghost predicate WasDecided(steps: seq<Step>, p: PaymentId, target: Status) {
    exists k: nat :: DecidesAt(steps, k, p, target)
  }

  /** No two of the run's deciding steps decide one payment differently. */
  ghost predicate DecisionsAgree(steps: seq<Step>) {
    forall j: nat, k: nat, p, t, u :: DecidesAt(steps, j, p, t) && DecidesAt(steps, k, p, u) ==> t == u
  }

  lemma DecidedBefore(steps: seq<Step>, p: PaymentId, target: Status)
    requires steps != [] && WasDecided(steps[..|steps| - 1], p, target)
    ensures WasDecided(steps, p, target)
  {
    var init := steps[..|steps| - 1];
    var k: nat :| DecidesAt(init, k, p, target);
    assert steps[..k] == init[..k];
    assert DecidesAt(steps, k, p, target);
  }

  /** Every terminal row, on whichever node, goes back to a deciding step. */
  lemma {:induction false} TerminalWasDecided(steps: seq<Step>, n: Node, p: PaymentId, u: Status)
    requires Exec(steps).Some? && Terminal(u) && RowIs(Exec(steps).value, n, p, u)
    ensures WasDecided(steps, p, u)
  {
    if steps == [] {
      assert false;
    } else {
      var init, step := steps[..|steps| - 1], steps[|steps| - 1];
      var s, t := Exec(init).value, Exec(steps).value;
      RunKeepsInv(init);
      InsertsArePending(s, step);
      WrittenRow(s, Effect(s, step), t, n, p);
      if RowIs(s, n, p, u) {
        TerminalWasDecided(init, n, p, u);
        DecidedBefore(steps, p, u);
      } else if step.FollowerUpdate? || step.CatchUpUpdate? {
        var m := RelayHasSource(s, step);
        TerminalWasDecided(init, m, p, u);
        DecidedBefore(steps, p, u);
      } else {
        assert DecidesAt(steps, |steps| - 1, p, u);
      }
    }
  }

  /** And every deciding step leaves its row for good. */
  lemma DecisionStays(steps: seq<Step>, k: nat, p: PaymentId, u: Status) returns (n: Node)
    requires Exec(steps).Some? && DecidesAt(steps, k, p, u)
    ensures Terminal(u) && RowIs(Exec(steps).value, n, p, u)
  {
    var init, step := steps[..k], steps[k];
    assert steps[..k + 1][..k] == init && steps[..k + 1] + steps[k + 1..] == steps;
    RunGrows(steps[..k + 1], steps[k + 1..]);
    RunKeepsInv(init);
    EffectIsAdmissible(Exec(init).value, step);
    n := Effect(Exec(init).value, step).node;
    assert RowIs(Exec(steps[..k + 1]).value, n, p, u);
    RowsStay(Exec(steps[..k + 1]).value, Exec(steps).value, n, p);
  }

  /** In every run, with any number of leaders, the nodes agree exactly when the
      deciding steps do: announcing, relaying and copying a decision never makes
      a disagreement, and never hides one. */
  lemma NodesAgreeIffDecisionsDo(steps: seq<Step>)
    requires Exec(steps).Some?
    ensures NoTwoNodesDisagree(Exec(steps).value) <==> DecisionsAgree(steps)
  {
    var s := Exec(steps).value;
    if DecisionsAgree(steps) {
      forall m, n, p | HasRow(s, m, p) && HasRow(s, n, p)
                       && Terminal(LedgerOf(s, m).rows[p].status) && Terminal(LedgerOf(s, n).rows[p].status)
        ensures LedgerOf(s, m).rows[p].status == LedgerOf(s, n).rows[p].status
      {
        TerminalWasDecided(steps, m, p, LedgerOf(s, m).rows[p].status);
        TerminalWasDecided(steps, n, p, LedgerOf(s, n).rows[p].status);
      }
    } else {
      var j: nat, k: nat, p, t, u :| DecidesAt(steps, j, p, t) && DecidesAt(steps, k, p, u) && t != u;
      var m := DecisionStays(steps, j, p, t);
      var n := DecisionStays(steps, k, p, u);
      assert HasRow(s, m, p) && HasRow(s, n, p);
    }
  }

  lemma {:induction false} LedRun(steps: seq<Step>, leader: Node)
    requires Exec(steps).Some? && forall k :: 0 <= k < |steps| ==> ByLeader(leader, steps[k])
    ensures Led(Exec(steps).value, leader)
  {
    if steps == [] {
      InitLed(leader);
    } else {
      LedRun(steps[..|steps| - 1], leader);
      StepKeepsLed(Exec(steps[..|steps| - 1]).value, leader, steps[|steps| - 1]);
    }
  }

  /** One leader: whatever terminal status a node holds for a payment is the
      leader's, in every interleaving and whatever the net does to messages. */
  lemma SingleLeaderAgreement(steps: seq<Step>, leader: Node, n: Node, p: PaymentId)
    requires Exec(steps).Some? && forall k :: 0 <= k < |steps| ==> ByLeader(leader, steps[k])
    requires HasRow(Exec(steps).value, n, p) && Terminal(LedgerOf(Exec(steps).value, n).rows[p].status)
    ensures RowIs(Exec(steps).value, leader, p, LedgerOf(Exec(steps).value, n).rows[p].status)
  {
    LedRun(steps, leader);
  }

  lemma EnoughMeansAgreement(s: State, n: Node)
    requires KnowsEnough(s, n)
    ensures NoTwoNodesDisagree(s)
  {
    forall m, o, p | HasRow(s, m, p) && HasRow(s, o, p)
                     && Terminal(LedgerOf(s, m).rows[p].status) && Terminal(LedgerOf(s, o).rows[p].status)
      ensures LedgerOf(s, m).rows[p].status == LedgerOf(s, o).rows[p].status
    {
      assert ReadyFor(s, n, p, LedgerOf(s, m).rows[p].status) && ReadyFor(s, n, p, LedgerOf(s, o).rows[p].status);
    }
  }

  lemma {:induction false} LedThroughout(worlds: seq<World>, moves: seq<Move>)
    requires Run(worlds, moves)
    ensures Inv(worlds[|moves|].state) && CanHandOver(worlds[|moves|].state, worlds[|moves|].leader)
  {
    if moves == [] {
      InitInv();
    } else {
      var k := |moves| - 1;
      assert Run(worlds[..k + 1], moves[..k]);
      LedThroughout(worlds[..k + 1], moves[..k]);
      if moves[k].Work? {
        StepKeepsHandOver(worlds[k].state, worlds[k].leader, moves[k].step);
      }
    }
  }

  /** Many leaders: no two nodes ever disagree, if at each handover the new
      leader knows enough of what is final anywhere, and no other node has a call
      left that could still decide. */
  lemma AgreementAcrossLeaders(worlds: seq<World>, moves: seq<Move>)
    requires Run(worlds, moves)
    ensures NoTwoNodesDisagree(worlds[|moves|].state)
  {
    LedThroughout(worlds, moves);
    EnoughMeansAgreement(worlds[|moves|].state, worlds[|moves|].leader);
  }
}
