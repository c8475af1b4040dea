/** What a call must answer, and what it must leave: the other half of what its
    answers promise (internal/api/http.go: processPaymentRequest,
    stripeCancelCheckoutSessionHandler). */
module Answers {
  import opened Wrappers
  import opened Replication
  import opened Storage
  import opened Cluster
  import opened ClusterInvariants
  import ClusterTheorems

  // ---------------------------------------------------------------- admission

  /** How admission answers, for every row it can meet: OK when the payment has the
      status the call is for, a refusal when it is FAILED, PENDING under a payment,
      or COMMITTED under a cancel, and otherwise the call goes on. Nothing else
      changes. */
  lemma AdmissionTable(s: State, c: nat)
    requires Shape(s) && Enabled(s, Admit(c))
    ensures c in Apply(s, Admit(c)).calls
    ensures var t, n, p := Apply(s, Admit(c)), s.calls[c].node, s.calls[c].entry.paymentID;
            var pay, phase := s.calls[c].kind.Pay?, t.calls[c].phase;
            && (phase == Done(OkRecorded) <==> if pay then RowIs(s, n, p, Committed) else RowIs(s, n, p, Canceled))
            && (phase == Done(Refused) <==>
                  RowIs(s, n, p, Failed) || (if pay then RowIs(s, n, p, Pending) else RowIs(s, n, p, Committed)))
            && (phase == Admitted <==>
                  !HasRow(s, n, p) || (if pay then RowIs(s, n, p, Canceled) else RowIs(s, n, p, Pending)))
            && t == s.(calls := s.calls[c := s.calls[c].(phase := phase)])
  {
    var n, p := s.calls[c].node, s.calls[c].entry.paymentID;
    assert HasRow(s, n, p) ==> RowWellFormed(LedgerOf(s, n), p);
    assert s.net + {} == s.net;
    assert Moved(s, Admit(c)) == s.calls[c].(phase := Moved(s, Admit(c)).phase);
  }

  ghost predicate Died(steps: seq<Step>, c: nat) {
    Die(c) in steps
  }

  lemma LeavesNoAnswer(s: State, step: Step)
    requires Enabled(s, step) && Moves(step) && Apply(s, step).calls[step.call].phase == Done(NoAnswer)
    ensures step.Die?
  {
  }

  lemma {:induction false} OnlyDeathLeavesNoAnswer(steps: seq<Step>, c: nat)
    requires Exec(steps).Some? && c in Exec(steps).value.calls
    requires Exec(steps).value.calls[c].phase == Done(NoAnswer)
    ensures Died(steps, c)
  {
    if steps == [] {
      assert false;
    } else {
      var init, step := steps[..|steps| - 1], steps[|steps| - 1];
      var s := Exec(init).value;
      assert steps == init + [step];
      if Moves(step) && step.call == c {
        LeavesNoAnswer(s, step);
      } else {
        OnlyDeathLeavesNoAnswer(init, c);
      }
    }
  }

  lemma TargetStaysHeld(s: State, t: State, c: nat)
    requires c in s.calls && Grows(s, t) && TargetHeld(s, c)
    ensures c in t.calls && TargetHeld(t, c)
  {
    RowsStay(s, t, s.calls[c].node, s.calls[c].entry.paymentID);
  }

  /** A retry of a payment that already has the status the call is for is answered
      OK, unless it dies, and changes nothing. */
  lemma RetryIsAnsweredOk(steps: seq<Step>, more: seq<Step>, c: nat)
    requires Exec(steps + more).Some?
    requires Exec(steps).Some? && c in Exec(steps).value.calls && Exec(steps).value.calls[c].phase.Started?
    requires var s, call := Exec(steps).value, Exec(steps).value.calls[c];
             RowIs(s, call.node, call.entry.paymentID, if call.kind.Pay? then Committed else Canceled)
    ensures c in Exec(steps + more).value.calls
    ensures var b := Exec(steps + more).value.calls[c];
            && !b.indexed && b.followers == []
            && (b.phase.Done? ==> b.phase == Done(OkRecorded) || (b.phase == Done(NoAnswer) && Died(steps + more, c)))
  {
    ClusterTheorems.SettledPaymentsAreLeftAlone(steps, more, c);
    RunGrows(steps, more);
    TargetStaysHeld(Exec(steps).value, Exec(steps + more).value, c);
    if Exec(steps + more).value.calls[c].phase == Done(NoAnswer) {
      OnlyDeathLeavesNoAnswer(steps + more, c);
    }
  }

  // ---------------------------------------------------------------- how a call ends

  /** A local call of the replication reports a failure, or its quorum is missed. */
  predicate Misses(s: State, step: Step)
    requires Enabled(s, step)
  {
    || (step.CheckLocal? && !step.ok)
    || (step.Decide? && 2 * (1 + |s.calls[step.call].acks|) <= 1 + |s.calls[step.call].followers|)
    || (step.UpdateLocal? && !step.ran)
    || (step.ReportLocal? && !step.ok)
  }

  /** Past admission a call is answered by exactly these steps: OK when all its
      followers have been told, a refusal when another writer overtook its index or
      when a cancel misses, an error after FAILED was attempted, and nothing when it
      dies. A payment that misses goes on to mark itself FAILED. */
  lemma StepAnswers(s: State, step: Step)
    requires Enabled(s, step) && Moves(step) && !step.Start? && !step.Admit?
    requires s.calls[step.call].phase.Announcing? ==> s.calls[step.call].phase.told <= |s.calls[step.call].followers|
    ensures step.call in Apply(s, step).calls
    ensures var call, phase := s.calls[step.call], Apply(s, step).calls[step.call].phase;
            && (phase == Done(OkReplicated) <==> step.Finish?)
            && (phase == Done(Refused) <==>
                  || (step.GetHead? && call.phase.next <= s.head.value)
                  || (call.kind.Cancel? && Misses(s, step)))
            && (phase == Done(MarkedFailed) <==> step.FailLocal?)
            && (phase == Done(NoAnswer) <==> step.Die?)
            && phase != Done(OkRecorded)
            && (phase == Failing <==> call.kind.Pay? && Misses(s, step))
  {
  }

  // ---------------------------------------------------------------- everybody is asked, and told

  /** A call that counts its quorum as reached has the result of every follower. */
  lemma {:induction false} QuorumIsCountedLast(steps: seq<Step>, c: nat)
    requires Exec(steps).Some? && c in Exec(steps).value.calls
    requires PastQuorum(Exec(steps).value.calls[c].phase)
    ensures var call := Exec(steps).value.calls[c]; forall i :: 0 <= i < |call.followers| ==> i in call.heard
  {
    if steps == [] {
      assert false;
    } else {
      var init, step := steps[..|steps| - 1], steps[|steps| - 1];
      var s := Exec(init).value;
      if !(Moves(step) && step.call == c) {
        QuorumIsCountedLast(init, c);
      } else if !step.Start? {
        PhaseOrigins(s, step);
        MovedFrame(s, step);
        if PastQuorum(s.calls[c].phase) {
          QuorumIsCountedLast(init, c);
        }
      }
    }
  }

  /** Step `k` is the end of call `c`'s finalize message to follower `i`. */
  ghost predicate TellsAt(steps: seq<Step>, k: nat, c: nat, i: nat) {
    && k < |steps| && steps[k].HearFinalize? && steps[k].call == c && Exec(steps[..k]).Some?
    && c in Exec(steps[..k]).value.calls && Exec(steps[..k]).value.calls[c].phase == Announcing(i)
  }

  ghost predicate Told(steps: seq<Step>, c: nat, i: nat) {
    exists k: nat :: TellsAt(steps, k, c, i)
  }

  lemma ToldBefore(steps: seq<Step>, c: nat, i: nat)
    requires steps != [] && Told(steps[..|steps| - 1], c, i)
    ensures Told(steps, c, i)
  {
    var init := steps[..|steps| - 1];
    var k: nat :| TellsAt(init, k, c, i);
    assert steps[..k] == init[..k];
    assert TellsAt(steps, k, c, i);
  }

  lemma TellingSteps(s: State, step: Step)
    requires Enabled(s, step) && Moves(step) && !step.Start?
    ensures var a, b := s.calls[step.call].phase, NextPhase(s, step);
            && (b.Announcing? ==>
                  || (step.ReportLocal? && b.told == 0)
                  || (step.SendFinalize? && b == a)
                  || (step.HearFinalize? && a.Announcing? && b.told == a.told + 1))
            && (b == Done(OkReplicated) ==> a.Announcing? && a.told == |s.calls[step.call].followers|)
  {
  }

  /** How many followers a call has told, by its phase. */
  function ToldCount(call: Call): nat {
    if call.phase.Announcing? then call.phase.told
    else if call.phase == Done(OkReplicated) then |call.followers| else 0
  }

  /** A call tells its followers one by one, and answers OK after it told all. */
  lemma {:induction false} EveryFollowerIsTold(steps: seq<Step>, c: nat, i: nat)
    requires Exec(steps).Some? && c in Exec(steps).value.calls && i < ToldCount(Exec(steps).value.calls[c])
    ensures Told(steps, c, i)
  {
    if steps == [] {
      assert false;
    } else {
      var init, step := steps[..|steps| - 1], steps[|steps| - 1];
      var s := Exec(init).value;
      if !(Moves(step) && step.call == c) {
        EveryFollowerIsTold(init, c, i);
        ToldBefore(steps, c, i);
      } else if !step.Start? {
        TellingSteps(s, step);
        MovedFrame(s, step);
        if i < ToldCount(s.calls[c]) {
          EveryFollowerIsTold(init, c, i);
          ToldBefore(steps, c, i);
        } else {
          assert TellsAt(steps, |steps| - 1, c, i);
        }
      }
    }
  }

  // ---------------------------------------------------------------- payments that go wrong

  /** Step `k` is a failing local database call of call `c`. A finalizer's failure
      report is one only if the row does have the status. */
  ghost predicate FaultAt(steps: seq<Step>, k: nat, c: nat) {
    && k < |steps|
    && (steps[k] in {InsertLocal(c, false), CheckLocal(c, false), UpdateLocal(c, false), FailLocal(c, false)}
        || (steps[k] == ReportLocal(c, false) && Exec(steps[..k]).Some?
            && c in Exec(steps[..k]).value.calls && TargetHeld(Exec(steps[..k]).value, c)))
  }

  ghost predicate HadFault(steps: seq<Step>, c: nat) {
    exists k: nat :: FaultAt(steps, k, c)
  }

  lemma FaultBefore(steps: seq<Step>, c: nat)
    requires steps != [] && HadFault(steps[..|steps| - 1], c)
    ensures HadFault(steps, c)
  {
    var init := steps[..|steps| - 1];
    var k: nat :| FaultAt(init, k, c);
    assert steps[..k] == init[..k];
    assert FaultAt(steps, k, c);
  }

  lemma FaultsNow(s: State, step: Step)
    requires Enabled(s, step) && Moves(step) && !step.Start?
    requires Moved(s, step).faulted && !s.calls[step.call].faulted
    ensures var c := step.call;
            || step in {InsertLocal(c, false), CheckLocal(c, false), UpdateLocal(c, false), FailLocal(c, false)}
            || (step == ReportLocal(c, false) && TargetHeld(s, c))
  {
  }

  /** The history flag of a call says nothing that the run does not. */
  lemma {:induction false} FaultedHadFault(steps: seq<Step>, c: nat)
    requires Exec(steps).Some? && c in Exec(steps).value.calls && Exec(steps).value.calls[c].faulted
    ensures HadFault(steps, c)
  {
    if steps == [] {
      assert false;
    } else {
      var init, step := steps[..|steps| - 1], steps[|steps| - 1];
      var s := Exec(init).value;
      if c in s.calls && s.calls[c].faulted {
        FaultedHadFault(init, c);
        FaultBefore(steps, c);
      } else {
        assert Moves(step) && step.call == c && !step.Start?;
        FaultsNow(s, step);
        assert FaultAt(steps, |steps| - 1, c);
      }
    }
  }

  /** A pay call that got an index, whose local database calls worked and which did
      not die, leaves nothing PENDING: once it has ended, with whichever answer, its
      row is terminal for good. */
  lemma CleanPaymentsAreSettled(steps: seq<Step>, more: seq<Step>, c: nat)
    requires Exec(steps + more).Some?
    requires Exec(steps).Some? && c in Exec(steps).value.calls && !Died(steps, c) && !HadFault(steps, c)
    requires var call := Exec(steps).value.calls[c]; call.kind.Pay? && call.indexed && call.phase.Done?
    ensures var call, t := Exec(steps).value.calls[c], Exec(steps + more).value;
            && HasRow(t, call.node, call.entry.paymentID)
            && Terminal(LedgerOf(t, call.node).rows[call.entry.paymentID].status)
  {
    if Exec(steps).value.calls[c].faulted {
      FaultedHadFault(steps, c);
    }
    if Exec(steps).value.calls[c].phase == Done(NoAnswer) {
      OnlyDeathLeavesNoAnswer(steps, c);
    }
    ClusterTheorems.PayLeavesNothingPending(steps, more, c);
  }

  /** A pay call that got an index, did not die and has no quorum ends marked
      FAILED, whatever its database calls did. */
  lemma NoQuorumMeansFailed(steps: seq<Step>, c: nat)
    requires Exec(steps).Some? && c in Exec(steps).value.calls && !Died(steps, c)
    requires var call := Exec(steps).value.calls[c];
             call.kind.Pay? && call.indexed && call.phase.Done? && 2 * (1 + |call.acks|) <= 1 + |call.followers|
    ensures Exec(steps).value.calls[c].phase == Done(MarkedFailed)
  {
    var s := Exec(steps).value;
    RunKeepsInv(steps);
    assert Good(s, s.calls[c]);
    if s.calls[c].phase == Done(NoAnswer) {
      OnlyDeathLeavesNoAnswer(steps, c);
    }
  }

  lemma FailsPending(s: State, c: nat)
    requires Enabled(s, FailLocal(c, true)) && RowIs(s, s.calls[c].node, s.calls[c].entry.paymentID, Pending)
    ensures RowIs(Apply(s, FailLocal(c, true)), s.calls[c].node, s.calls[c].entry.paymentID, Failed)
  {
  }

  /** And its row is FAILED for good if its own UPDATE met it PENDING. */
  lemma MarkedRowsAreFailed(before: seq<Step>, s: State, c: nat, more: seq<Step>)
    requires Exec(before) == Some(s) && Exec(before + [FailLocal(c, true)] + more).Some?
    requires c in s.calls && RowIs(s, s.calls[c].node, s.calls[c].entry.paymentID, Pending)
    ensures RowIs(Exec(before + [FailLocal(c, true)] + more).value,
                  s.calls[c].node, s.calls[c].entry.paymentID, Failed)
  {
    var next := before + [FailLocal(c, true)];
    RunGrows(next, more);
    assert next[..|next| - 1] == before;
    FailsPending(s, c);
    RowsStay(Exec(next).value, Exec(next + more).value, s.calls[c].node, s.calls[c].entry.paymentID);
  }

  // ---------------------------------------------------------------- the payment lock

  /** Pay calls on one node whose ids differ in surrounding white space at most,
      and are not blank, never run at once. */
  lemma PayCallsExclude(steps: seq<Step>, c: nat, d: nat)
    requires Exec(steps).Some? && c in Exec(steps).value.calls && d in Exec(steps).value.calls
    requires var a, b := Exec(steps).value.calls[c], Exec(steps).value.calls[d];
             && a.kind.Pay? && b.kind.Pay? && a.node == b.node && !a.phase.Done? && !b.phase.Done?
             && TrimSpace(a.entry.paymentID) == TrimSpace(b.entry.paymentID) && !AllSpaces(a.entry.paymentID)
    ensures c == d
  {
    RunKeepsInv(steps);
    var s := Exec(steps).value;
    var left, right := TrimSpaceCuts(s.calls[c].entry.paymentID);
    assert c != d ==> SharesLock(s.calls[c], s.calls[d]);
  }
}
