/** What every run of the cluster guarantees, with any number of leaders. */
module ClusterTheorems {
  import opened Wrappers
  import opened Replication
  import opened Storage
  import opened Counters
  import opened Cluster
  import opened ClusterInvariants
  import Quorum
  import CatchUp
  import Paging
  import Rounds

  // ---------------------------------------------------------------- finalizations

  /** The call's quorum hold a row for its payment: a strict majority of the
      nodes it addressed, its own included, unless its list lets a minority pass. */
  ghost predicate MajorityHolds(s: State, call: Call) {
    && (forall i :: i in call.acks ==> i < |call.followers|)
    && (forall n :: n in Quorum.Holders(call.node, call.followers, call.acks) ==> HasRow(s, n, call.entry.paymentID))
    && 1 + |call.acks| >= Quorum.RequiredQuorum(1 + |call.followers|)
    && (Quorum.NoMinorityPasses(call.node, call.followers) ==>
          Quorum.IsMajority(call.node, call.followers, call.acks))
  }

  /** A call that acknowledgements and the caller's own update entitle to `target`. */
  ghost predicate Backs(s: State, call: Call, p: PaymentId, target: Status) {
    && call.entry.paymentID == p
    && Target(call.kind) == target
    && RowIs(s, call.node, p, target)
    && MajorityHolds(s, call)
  }

  lemma QuorumHolds(s: State, call: Call)
    requires Acknowledged(s, call) && HasQuorum(call) && HasRow(s, call.node, call.entry.paymentID)
    ensures MajorityHolds(s, call)
  {
    Quorum.QuorumsAreMajoritiesIff(call.node, call.followers);
  }

  /** Every COMMITTED or CANCELED row on any node, catch-up copies included,
      goes back to a call of that kind that a majority acknowledged and that
      updated its own row. */
  lemma EveryFinalizationIsJustified(steps: seq<Step>, n: Node, p: PaymentId, target: Status)
    requires Exec(steps).Some? && RowIs(Exec(steps).value, n, p, target)
    requires target.Committed? || target.Canceled?
    ensures exists c :: c in Exec(steps).value.calls && Backs(Exec(steps).value, Exec(steps).value.calls[c], p, target)
  {
    var s := Exec(steps).value;
    RunKeepsInv(steps);
    assert HasRow(s, n, p);
    assert Justified(s, p, target);
    var c :| Decided(s, c, p, target);
    assert Acknowledged(s, s.calls[c]);
    QuorumHolds(s, s.calls[c]);
    assert Backs(s, s.calls[c], p, target);
  }

  /** Once a call reports Committed, more than half of the addressed nodes hold
      the payment from then on, and every follower flagged CommitAcknowledged
      has the call's status, like the caller. */
  lemma MajorityDurability(steps: seq<Step>, more: seq<Step>, c: nat)
    requires Exec(steps + more).Some?
    requires Exec(steps).Some? && c in Exec(steps).value.calls && Successful(Exec(steps).value.calls[c].phase)
    ensures var call, t := Exec(steps).value.calls[c], Exec(steps + more).value;
            && MajorityHolds(t, call)
            && RowIs(t, call.node, call.entry.paymentID, Target(call.kind))
            && forall i :: i in call.finals ==>
                 i < |call.followers| && RowIs(t, call.followers[i], call.entry.paymentID, Target(call.kind))
  {
    var s, t := Exec(steps).value, Exec(steps + more).value;
    RunKeepsInv(steps);
    RunGrows(steps, more);
    var call := s.calls[c];
    assert Progress(s, call) && Acknowledged(s, call);
    AcknowledgedStays(s, t, call);
    ProgressStays(s, t, call);
    QuorumHolds(t, call);
  }

  /** Two successful calls over the same member list share a node that holds
      both payments. */
  lemma SuccessesMeet(steps: seq<Step>, c: nat, d: nat)
    requires Exec(steps).Some? && c in Exec(steps).value.calls && d in Exec(steps).value.calls
    requires var a, b := Exec(steps).value.calls[c], Exec(steps).value.calls[d];
             && Successful(a.phase) && Successful(b.phase)
             && Quorum.NoMinorityPasses(a.node, a.followers) && Quorum.NoMinorityPasses(b.node, b.followers)
             && Quorum.Addressed(a.node, a.followers) == Quorum.Addressed(b.node, b.followers)
    ensures var s := Exec(steps).value;
            exists n :: HasRow(s, n, s.calls[c].entry.paymentID) && HasRow(s, n, s.calls[d].entry.paymentID)
  {
    var s := Exec(steps).value;
    RunKeepsInv(steps);
    var a, b := s.calls[c], s.calls[d];
    assert Progress(s, a) && Acknowledged(s, a) && Progress(s, b) && Acknowledged(s, b);
    QuorumHolds(s, a);
    QuorumHolds(s, b);
    Quorum.QuorumsIntersect(a.node, a.followers, a.acks, b.node, b.followers, b.acks);
    var n :| n in Quorum.Holders(a.node, a.followers, a.acks) * Quorum.Holders(b.node, b.followers, b.acks);
    assert HasRow(s, n, a.entry.paymentID) && HasRow(s, n, b.entry.paymentID);
  }

  // ---------------------------------------------------------------- answers to clients

  predicate AnsweredOk(call: Call) {
    call.phase == Done(OkReplicated) || call.phase == Done(OkRecorded)
  }

  /** An OK answer is kept: the row on the answering node has the call's status
      in every later state. */
  lemma OkIsForever(steps: seq<Step>, more: seq<Step>, c: nat)
    requires Exec(steps + more).Some?
    requires Exec(steps).Some? && c in Exec(steps).value.calls && AnsweredOk(Exec(steps).value.calls[c])
    ensures var call := Exec(steps).value.calls[c];
            RowIs(Exec(steps + more).value, call.node, call.entry.paymentID, Target(call.kind))
  {
    RunKeepsInv(steps);
    RunGrows(steps, more);
    ProgressStays(Exec(steps).value, Exec(steps + more).value, Exec(steps).value.calls[c]);
  }

  /** On one node's store a payment never gets an OK pay answer and an OK
      cancel answer, although cancel takes no lock. */
  lemma PayAndCancelNeverBothSucceed(steps: seq<Step>, c: nat, d: nat)
    requires Exec(steps).Some? && c in Exec(steps).value.calls && d in Exec(steps).value.calls
    requires var a, b := Exec(steps).value.calls[c], Exec(steps).value.calls[d];
             a.node == b.node && a.entry.paymentID == b.entry.paymentID && a.kind.Pay? && b.kind.Cancel?
    ensures !(AnsweredOk(Exec(steps).value.calls[c]) && AnsweredOk(Exec(steps).value.calls[d]))
  {
    RunKeepsInv(steps);
    var s := Exec(steps).value;
    assert Progress(s, s.calls[c]) && Progress(s, s.calls[d]);
  }

  /** A pay call that got an index and did not die ends with an OK, or marked
      FAILED with no local database fault; then its row is terminal for good. */
  lemma PayLeavesNothingPending(steps: seq<Step>, more: seq<Step>, c: nat)
    requires Exec(steps + more).Some?
    requires Exec(steps).Some? && c in Exec(steps).value.calls
    requires var call := Exec(steps).value.calls[c];
             call.kind.Pay? && call.indexed && call.phase.Done? && !call.phase.answer.NoAnswer? && !call.faulted
    ensures var call, t := Exec(steps).value.calls[c], Exec(steps + more).value;
            && HasRow(t, call.node, call.entry.paymentID)
            && Terminal(LedgerOf(t, call.node).rows[call.entry.paymentID].status)
  {
    var s, t := Exec(steps).value, Exec(steps + more).value;
    RunKeepsInv(steps);
    RunGrows(steps, more);
    var call := s.calls[c];
    assert Progress(s, call) && CleanPay(s, call);
    RowsStay(s, t, call.node, call.entry.paymentID);
  }

  /** Thanks to the payment lock a payment is committed through at most one pay
      call per node, if its id is not blank. */
  lemma PaidAtMostOnce(steps: seq<Step>, c: nat, d: nat)
    requires Exec(steps).Some? && c in Exec(steps).value.calls && d in Exec(steps).value.calls
    requires var a, b := Exec(steps).value.calls[c], Exec(steps).value.calls[d];
             && a.kind.Pay? && b.kind.Pay? && a.node == b.node
             && a.entry.paymentID == b.entry.paymentID && TrimSpace(a.entry.paymentID) != ""
             && Successful(a.phase) && Successful(b.phase)
    ensures c == d
  {
    RunKeepsInv(steps);
    var s := Exec(steps).value;
    if c != d {
      assert SharesLock(s.calls[c], s.calls[d]);
    }
  }

  /** The payment is settled for this kind of call: admission answers it at once. */
  ghost predicate Settled(s: State, call: Call) {
    var n, p := call.node, call.entry.paymentID;
    RowIs(s, n, p, Committed) || RowIs(s, n, p, Failed) || (call.kind.Cancel? && RowIs(s, n, p, Canceled))
  }

  /** Answered at once, or dead: OK iff the payment has the call's own status. */
  ghost predicate SettledAnswer(s: State, c: nat, phase: Phase)
    requires c in s.calls
  {
    || phase == Done(NoAnswer)
    || phase == if TargetHeld(s, c) then Done(OkRecorded) else Done(Refused)
  }

  ghost predicate LeftAlone(s: State, c: nat) {
    && c in s.calls && Settled(s, s.calls[c])
    && !s.calls[c].indexed && s.calls[c].followers == []
    && (s.calls[c].phase.Started? || SettledAnswer(s, c, s.calls[c].phase))
  }

  /** The one step such a call can take. */
  lemma SettledIsAnswered(s: State, step: Step)
    requires Enabled(s, step) && Moves(step) && !step.Start?
    requires s.calls[step.call].phase.Started? && Settled(s, s.calls[step.call])
    ensures SettledAnswer(s, step.call, NextPhase(s, step)) && !step.ListFollowers? && !Wins(s, step)
  {
    FirstPhases(s, step);
  }

  lemma LeftAloneStays(s: State, t: State, c: nat, b: Call)
    requires LeftAlone(s, c) && Grows(s, t) && c in t.calls && t.calls[c] == b
    requires b == s.calls[c] || (
               && b.kind == s.calls[c].kind && b.node == s.calls[c].node
               && b.entry.paymentID == s.calls[c].entry.paymentID
               && !b.indexed && b.followers == [] && SettledAnswer(s, c, b.phase))
    ensures LeftAlone(t, c)
  {
    RowsStay(s, t, s.calls[c].node, s.calls[c].entry.paymentID);
  }

  lemma SettledStep(s: State, step: Step, c: nat)
    requires LeftAlone(s, c) && Enabled(s, step) && Grows(s, Apply(s, step))
    ensures LeftAlone(Apply(s, step), c)
  {
    if Moves(step) && step.call == c && !step.Start? {
      SettledIsAnswered(s, step);
      MovedFrame(s, step);
      LeftAloneStays(s, Apply(s, step), c, Moved(s, step));
    } else {
      LeftAloneStays(s, Apply(s, step), c, s.calls[c]);
    }
  }

  lemma StepKeepsLeftAlone(s: State, step: Step, c: nat)
    requires Inv(s) && LeftAlone(s, c) && Enabled(s, step)
    ensures LeftAlone(Apply(s, step), c)
  {
    StepGrows(s, step);
    SettledStep(s, step, c);
  }

  lemma {:induction false} LeftAloneForGood(steps: seq<Step>, more: seq<Step>, c: nat)
    requires Exec(steps + more).Some?
    requires Exec(steps).Some? && LeftAlone(Exec(steps).value, c)
    ensures LeftAlone(Exec(steps + more).value, c)
  {
    var all := steps + more;
    if more == [] {
      assert all == steps;
    } else {
      var init := all[..|all| - 1];
      assert init == steps + more[..|more| - 1];
      LeftAloneForGood(steps, more[..|more| - 1], c);
      RunKeepsInv(init);
      StepKeepsLeftAlone(Exec(init).value, all[|all| - 1], c);
    }
  }

  /** A call that starts on a settled payment never takes an index, asks no
      follower and is never replicated; it is answered OK only if the payment
      has the call's own status, and refused only if it has not. */
  lemma SettledPaymentsAreLeftAlone(steps: seq<Step>, more: seq<Step>, c: nat)
    requires Exec(steps + more).Some?
    requires Exec(steps).Some? && c in Exec(steps).value.calls
    requires Exec(steps).value.calls[c].phase.Started? && Settled(Exec(steps).value, Exec(steps).value.calls[c])
    ensures LeftAlone(Exec(steps + more).value, c)
  {
    RunKeepsInv(steps);
    var s := Exec(steps).value;
    assert Good(s, s.calls[c]);
    LeftAloneForGood(steps, more, c);
  }

  // ---------------------------------------------------------------- payments that stay PENDING

  ghost predicate IsFinal(s: State, n: Node, p: PaymentId) {
    HasRow(s, n, p) && Terminal(LedgerOf(s, n).rows[p].status)
  }

  /** A call on the payment that has not got past admission. */
  predicate Waits(call: Call, n: Node) {
    call.node == n && call.kind.Pay? && call.phase.Started?
  }

  predicate WasRefused(call: Call) {
    call.phase == Done(Refused) || call.phase == Done(NoAnswer)
  }

  /** Node `n` holds the payment PENDING, nobody has it final, and no call on it
      is past admission: what a cancel that missed its quorum leaves. The calls on
      it outside `earlier` have been refused, died, or are about to be. */
  ghost predicate Abandoned(s: State, n: Node, p: PaymentId, earlier: set<nat>) {
    && RowIs(s, n, p, Pending)
    && (forall m :: !IsFinal(s, m, p))
    && (forall c :: c in s.calls && s.calls[c].entry.paymentID == p ==>
          && (s.calls[c].phase.Done? || Waits(s.calls[c], n))
          && (c in earlier || Waits(s.calls[c], n) || WasRefused(s.calls[c])))
  }

  /** No statement makes an abandoned payment final. */
  lemma AbandonedIsNotUpdated(s: State, step: Step, n: Node, p: PaymentId, earlier: set<nat>)
    requires Inv(s) && Enabled(s, step) && Abandoned(s, n, p, earlier)
    ensures Effect(s, step).Updates? ==> Effect(s, step).pid != p
  {
    if Effect(s, step).Updates? {
      if step.FollowerUpdate? || step.CatchUpUpdate? {
        var m := RelayHasSource(s, step);
        EffectIsAdmissible(s, step);
        assert IsFinal(s, m, Effect(s, step).pid);
      } else {
        OwnUpdateRuns(s, step);
      }
    }
  }

  lemma AbandonedCallIsRefused(s: State, step: Step, n: Node, p: PaymentId, earlier: set<nat>)
    requires Enabled(s, step) && Moves(step) && !step.Start? && Abandoned(s, n, p, earlier)
    requires s.calls[step.call].entry.paymentID == p
    ensures Moved(s, step).phase == Done(Refused) || Moved(s, step).phase == Done(NoAnswer)
  {
    FirstPhases(s, step);
  }

  lemma AbandonedRowsStay(s: State, w: Write, t: State, n: Node, p: PaymentId)
    requires RowIs(s, n, p, Pending) && (forall m :: !IsFinal(s, m, p))
    requires Grows(s, t) && t.ledgers == Written(s, w)
    requires w.Updates? ==> w.pid != p
    requires w.Inserts? ==> w.entry.status.Pending?
    ensures RowIs(t, n, p, Pending) && forall m :: !IsFinal(t, m, p)
  {
    RowsStay(s, t, n, p);
    WrittenRow(s, w, t, n, p);
    forall m | HasRow(t, m, p)
      ensures !IsFinal(t, m, p)
    {
      WrittenRow(s, w, t, m, p);
      assert !IsFinal(s, m, p);
    }
  }

  lemma AbandonedFollows(s: State, t: State, n: Node, p: PaymentId, earlier: set<nat>, c: nat, b: Call)
    requires Abandoned(s, n, p, earlier) && t.calls == s.calls[c := b]
    requires RowIs(t, n, p, Pending) && forall m :: !IsFinal(t, m, p)
    requires b.entry.paymentID == p ==> WasRefused(b) || Waits(b, n)
    ensures Abandoned(t, n, p, earlier)
  {
  }

  lemma StepKeepsAbandoned(s: State, step: Step, n: Node, p: PaymentId, earlier: set<nat>)
    requires Inv(s) && Enabled(s, step) && Abandoned(s, n, p, earlier)
    requires step.Start? && step.entry.paymentID == p ==> step.kind.Pay? && step.node == n
    ensures Abandoned(Apply(s, step), n, p, earlier)
  {
    var t := Apply(s, step);
    StepGrows(s, step);
    AbandonedIsNotUpdated(s, step, n, p, earlier);
    InsertsArePending(s, step);
    AbandonedRowsStay(s, Effect(s, step), t, n, p);
    if Moves(step) {
      if step.Start? {
        AbandonedFollows(s, t, n, p, earlier, step.call, NewCall(step.kind, step.node, step.entry));
      } else {
        MovedFrame(s, step);
        if s.calls[step.call].entry.paymentID == p {
          AbandonedCallIsRefused(s, step, n, p, earlier);
        }
        AbandonedFollows(s, t, n, p, earlier, step.call, Moved(s, step));
      }
    }
  }

  /** The advice to retry does not help: as long as no new cancel comes and other
      nodes start nothing on it, an abandoned payment stays PENDING, and every
      pay call on it is refused or dies. */
  lemma {:induction false} PendingPaymentIsStuck(steps: seq<Step>, more: seq<Step>, n: Node, p: PaymentId)
    requires Exec(steps).Some? && Exec(steps + more).Some?
    requires Abandoned(Exec(steps).value, n, p, Exec(steps).value.calls.Keys)
    requires forall k :: 0 <= k < |more| && more[k].Start? && more[k].entry.paymentID == p ==>
                           more[k].kind.Pay? && more[k].node == n
    ensures Abandoned(Exec(steps + more).value, n, p, Exec(steps).value.calls.Keys)
  {
    var all := steps + more;
    if more == [] {
      assert all == steps;
    } else {
      var init := more[..|more| - 1];
      assert all[..|all| - 1] == steps + init;
      PendingPaymentIsStuck(steps, init, n, p);
      RunKeepsInv(steps + init);
      StepKeepsAbandoned(Exec(steps + init).value, all[|all| - 1], n, p, Exec(steps).value.calls.Keys);
    }
  }

  // ---------------------------------------------------------------- log indices

  ghost predicate Owns(s: State, c: nat, k: int) {
    c in s.calls && s.calls[c].indexed && s.calls[c].entry.logIndex == k
  }

  ghost predicate Taken(s: State, k: int) {
    exists c :: Owns(s, c, k)
  }

  /** No two calls on any nodes, stale leaders included, get the same index,
      and the indices handed out are 1, 2, ... up to the head without a gap. */
  lemma IndicesAreIssuedOnce(steps: seq<Step>)
    requires Exec(steps).Some?
    ensures var s := Exec(steps).value;
            && (forall c, d, k :: Owns(s, c, k) && Owns(s, d, k) ==> c == d)
            && (forall c, k :: Owns(s, c, k) ==> 1 <= k <= s.head.value)
            && (forall k :: 1 <= k <= s.head.value ==> Taken(s, k))
  {
    RunKeepsInv(steps);
    var s := Exec(steps).value;
    forall k | 1 <= k <= s.head.value
      ensures Taken(s, k)
    {
      assert k in s.issued;
      assert Owns(s, s.issued[k], k);
    }
  }

  lemma HeadMoves(s: State, step: Step)
    requires Inv(s) && Enabled(s, step)
    ensures var t, raise := Apply(s, step), if Wins(s, step) then 1 else 0;
            t.head.value == s.head.value + raise && t.head.version == s.head.version + raise
  {
    if Wins(s, step) {
      HeadAdvancesByOne(s, step);
    }
  }

  /** The head only moves by a successful Set, and then by exactly one. Between
      any two looks at it, other writers have left it or raised it, which is
      what CounterNode.AdvanceLogHead relies on. */
  lemma HeadRisesByOne(steps: seq<Step>, step: Step, more: seq<Step>)
    requires Exec(steps + [step] + more).Some?
    ensures Exec(steps).Some? && Exec(steps + [step]).Some?
    ensures var s, t := Exec(steps).value, Exec(steps + [step]).value;
            && Enabled(s, step)
            && t.head.value == s.head.value + (if Wins(s, step) then 1 else 0)
            && t.head.version == s.head.version + (if Wins(s, step) then 1 else 0)
            && Raised(s.head, Exec(steps + [step] + more).value.head)
  {
    RunGrows(steps + [step], more);
    assert (steps + [step])[..|steps|] == steps;
    RunGrows(steps, [step]);
    RunKeepsInv(steps);
    HeadMoves(Exec(steps).value, step);
  }

  /** Any two rows on any nodes with the same log index are for the same payment. */
  lemma OneIndexOnePayment(steps: seq<Step>, m: Node, p: PaymentId, n: Node, q: PaymentId)
    requires Exec(steps).Some?
    requires HasRow(Exec(steps).value, m, p) && HasRow(Exec(steps).value, n, q)
    requires LedgerOf(Exec(steps).value, m).rows[p].logIndex == LedgerOf(Exec(steps).value, n).rows[q].logIndex
    ensures p == q
  {
    RunKeepsInv(steps);
    var s := Exec(steps).value;
    assert RowIndexed(s, m, p) && RowIndexed(s, n, q);
  }

  /** So no other finalized row has the index of a row still to be finalized,
      which is what the catch-up rounds ask of their leader. */
  lemma ReachableIndicesAreFree(steps: seq<Step>, n: Node, p: PaymentId)
    requires Exec(steps).Some? && RowIs(Exec(steps).value, n, p, Pending)
    ensures Rounds.IndexIsFree(LedgerOf(Exec(steps).value, n), p)
  {
    var l := LedgerOf(Exec(steps).value, n);
    forall q | CatchUp.FinalStatus(l, q).Some?
      ensures l.rows[q].logIndex != l.rows[p].logIndex
    {
      if l.rows[q].logIndex == l.rows[p].logIndex {
        OneIndexOnePayment(steps, n, p, n, q);
      }
    }
  }

  /** So every ledger that can arise pages losslessly, for every page size. */
  lemma ReachableLedgersPageLosslessly(steps: seq<Step>, n: Node, from: int, limit: nat)
    requires Exec(steps).Some?
    ensures var l := LedgerOf(Exec(steps).value, n);
            WellFormed(l) && Paging.AllPages(l, from, limit) == CatchUp.Entries(Listing(l, from))
  {
    RunKeepsInv(steps);
    var s := Exec(steps).value;
    var l := LedgerOf(s, n);
    forall p, q | Has(l, p) && Has(l, q) && l.rows[p].logIndex == l.rows[q].logIndex
      ensures p == q
    {
      OneIndexOnePayment(steps, n, p, n, q);
    }
    Paging.OnePerIndexIsEnough(l, from);
    Paging.PagesAreLossless(l, from, limit);
  }
}
