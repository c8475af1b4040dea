/** The fault and recovery state of a node (internal/coordination/status.go,
    internal/coordination/manager.go): guarded transitions on fields that three
    threads share. */
module Recovery {
  import opened Wrappers

  /** `Unset` is the empty text, `Unknown` any unsupported one. */
  datatype FaultState = Unset | Healthy | Failed | Recovering | Rejoined | Unknown(text: string)

  predicate IsValidFaultState(f: FaultState) {
    !f.Unset? && !f.Unknown?
  }

  predicate CanTransition(current: FaultState, next: FaultState) {
    match current
    case Unset => next.Recovering?
    case Recovering => next.Rejoined? || next.Failed?
    case Rejoined => next.Healthy? || next.Failed?
    case Healthy => next.Failed? || next.Recovering?
    case Failed => next.Recovering?
    case Unknown(_) => false
  }

  /** The fields the mutex protects; times are opaque numbers. */
  datatype Fields = Fields(
    faultState: FaultState,
    recoveryInProgress: bool,
    recoveryCaughtUp: bool,
    rejoinedSince: Option<int>,
    lastRecoveryTime: Option<int>,
    lastStateChange: Option<int>,
    lastFaultReason: string)

  const STARTUP := Fields(Recovering, true, false, None, None, None, "startup recovery pending catch-up")

  predicate InRecovery(f: FaultState) {
    f.Recovering? || f.Rejoined?
  }

  function SetFault(m: Fields, next: FaultState, reason: string, now: int): Fields {
    var noted := if reason != "" then m.(lastFaultReason := reason) else m;
    if !IsValidFaultState(next) then m
    else if m.faultState == next then noted
    else if !CanTransition(m.faultState, next) then m
    else
      Fields(next,
             InRecovery(next),
             m.recoveryCaughtUp && !next.Recovering? && !next.Failed?,
             if next.Rejoined? then Some(now) else if m.faultState.Rejoined? then None else m.rejoinedSince,
             if m.faultState.Rejoined? && next.Healthy? then Some(now) else m.lastRecoveryTime,
             Some(now),
             noted.lastFaultReason)
  }

  function MarkCaughtUp(m: Fields): Fields {
    m.(recoveryCaughtUp := true,
       lastFaultReason := if InRecovery(m.faultState) then "catch-up complete" else m.lastFaultReason)
  }

  function MarkCatchUpFailed(m: Fields, reason: string): Fields {
    m.(lastFaultReason := if InRecovery(m.faultState) then "catch-up failed: " + reason else m.lastFaultReason)
  }

  /** The derived fields say what the state says. */
  ghost predicate Coherent(m: Fields) {
    && IsValidFaultState(m.faultState)
    && (m.recoveryInProgress <==> InRecovery(m.faultState))
    && (m.rejoinedSince.Some? <==> m.faultState.Rejoined?)
  }

  /** internal/coordination/manager.go: Manager, its lock regions. */
  class Manager {
    var faultState: FaultState
    var recoveryInProgress: bool
    var recoveryCaughtUp: bool
    var rejoinedSince: Option<int>
    var lastRecoveryTime: Option<int>
    var lastStateChange: Option<int>
    var lastFaultReason: string

    function Contents(): Fields
      reads this
    {
      Fields(faultState, recoveryInProgress, recoveryCaughtUp, rejoinedSince, lastRecoveryTime, lastStateChange,
             lastFaultReason)
    }

    constructor ()
      ensures Contents() == STARTUP && Coherent(Contents())
    {
      faultState, recoveryInProgress, recoveryCaughtUp := Recovering, true, false;
      rejoinedSince, lastRecoveryTime, lastStateChange := None, None, None;
      lastFaultReason := "startup recovery pending catch-up";
    }

    method SetFaultState(next: FaultState, reason: string, now: int) returns (ok: bool)
      modifies this
      ensures Contents() == SetFault(old(Contents()), next, reason, now)
      ensures ok <==> IsValidFaultState(next) && (old(faultState) == next || CanTransition(old(faultState), next))
      ensures ok <==>
              match next
              case Recovering => old(faultState) in {Recovering, Unset, Healthy, Failed}
              case Rejoined => old(faultState) in {Rejoined, Recovering}
              case Healthy => old(faultState) in {Healthy, Rejoined}
              case Failed => old(faultState) in {Failed, Recovering, Rejoined, Healthy}
              case _ => false
      ensures ok ==> faultState == next
      ensures ok ==> lastFaultReason == if reason != "" then reason else old(lastFaultReason)
      ensures ok && next == old(faultState) ==> Contents() == old(Contents()).(lastFaultReason := lastFaultReason)
      ensures ok && next != old(faultState) ==>
                && lastStateChange == Some(now)
                && recoveryCaughtUp == (old(recoveryCaughtUp) && next != Recovering && next != Failed)
                && rejoinedSince == (if next == Rejoined then Some(now)
                                     else if old(faultState) == Rejoined then None else old(rejoinedSince))
                && lastRecoveryTime == (if old(faultState) == Rejoined && next == Healthy then Some(now)
                                        else old(lastRecoveryTime))
      ensures !ok ==> Contents() == old(Contents())
      ensures old(Coherent(Contents())) ==> Coherent(Contents())
    {
      if !IsValidFaultState(next) {
        return false;
      }
      var current := faultState;
      if current == next {
        if reason != "" {
          lastFaultReason := reason;
        }
        return true;
      }
      if !CanTransition(current, next) {
        return false;
      }
      faultState := next;
      lastStateChange := Some(now);
      recoveryInProgress := next == Recovering || next == Rejoined;
      if next == Recovering || next == Failed {
        recoveryCaughtUp := false;
      }
      if current == Rejoined && next == Healthy {
        lastRecoveryTime := Some(now);
      }
      if next == Rejoined {
        rejoinedSince := Some(now);
      } else if current == Rejoined {
        rejoinedSince := None;
      }
      if reason != "" {
        lastFaultReason := reason;
      }
      return true;
    }

    method MarkRecoveryCaughtUp()
      modifies this
      ensures Contents() == MarkCaughtUp(old(Contents()))
      ensures recoveryCaughtUp && faultState == old(faultState)
      ensures lastFaultReason == if faultState in {Recovering, Rejoined} then "catch-up complete"
                                 else old(lastFaultReason)
      ensures old(Coherent(Contents())) ==> Coherent(Contents())
    {
      recoveryCaughtUp := true;
      if faultState == Recovering || faultState == Rejoined {
        lastFaultReason := "catch-up complete";
      }
    }

    method MarkRecoveryCatchUpFailed(reason: string)
      modifies this
      ensures Contents() == MarkCatchUpFailed(old(Contents()), reason)
      ensures Contents() == old(Contents()).(lastFaultReason := lastFaultReason)
      ensures lastFaultReason == if faultState in {Recovering, Rejoined} then "catch-up failed: " + reason
                                 else old(lastFaultReason)
    {
      if faultState == Recovering || faultState == Rejoined {
        lastFaultReason := "catch-up failed: " + reason;
      }
    }
  }

  // ---------------------------------------------------------------- the threads

  /** Where the reconcile thread stands: outside, or between its read region,
      whose findings it keeps, and its write region. */
  datatype Reconcile = Outside | HasRead(faultState: FaultState, caughtUp: bool, leader: bool)

  datatype State = State(fields: Fields, reconcile: Reconcile)

  const INIT := State(STARTUP, Outside)

  /** One lock region of one thread. Session events come from
      consumeSessionEvents, marks from the catch-up loop. */
  datatype Step =
    | SessionEstablished(now: int)
    | SessionLost(reason: string, now: int)  // disconnected, expired or authentication failed
    | CaughtUp
    | CatchUpFailed(reason: string)
    | ReconcileRead(leader: bool)
    | ReconcileMark
    | ReconcileWrite(now: int)

  function Next(s: State, step: Step): State {
    match step
    case SessionEstablished(now) => s.(fields := SetFault(s.fields, Recovering, "zookeeper session established", now))
    case SessionLost(reason, now) => s.(fields := SetFault(s.fields, Failed, reason, now))
    case CaughtUp => s.(fields := MarkCaughtUp(s.fields))
    case CatchUpFailed(reason) => s.(fields := MarkCatchUpFailed(s.fields, reason))
    case ReconcileRead(leader) =>
      s.(reconcile := HasRead(s.fields.faultState, s.fields.recoveryCaughtUp, leader))
    case ReconcileMark =>
      if Marks(s, step)
      then State(MarkCaughtUp(s.fields), s.reconcile.(caughtUp := true))
      else s
    case ReconcileWrite(now) =>
      match s.reconcile
      case Outside => s
      case HasRead(f, caughtUp, _) =>
        if f.Recovering? && caughtUp
        then State(SetFault(s.fields, Rejoined, "catch-up complete; node rejoined cluster", now), Outside)
        else if f.Rejoined? && caughtUp
        then State(SetFault(s.fields, Healthy, "recovery complete; node operating normally", now), Outside)
        else s.(reconcile := Outside)
  }

  /** The step runs MarkRecoveryCaughtUp. */
  predicate Marks(s: State, step: Step) {
    step.CaughtUp? || (step.ReconcileMark? && s.reconcile.HasRead? && s.reconcile.leader && !s.reconcile.caughtUp)
  }

  ghost predicate Run(states: seq<State>, steps: seq<Step>) {
    && |states| == |steps| + 1
    && states[0] == INIT
    && forall k :: 0 <= k < |steps| ==> states[k + 1] == Next(states[k], steps[k])
  }

  /** Step `k` moves the node into `f`. */
  predicate Enters(states: seq<State>, k: nat, f: FaultState)
    requires k + 1 < |states|
  {
    states[k].fields.faultState != f && states[k + 1].fields.faultState == f
  }

  predicate Relapsed(before: Fields, after: Fields) {
    before.faultState != after.faultState && (after.faultState.Recovering? || after.faultState.Failed?)
  }

  /** Step `k` moves the node into RECOVERING or FAILED. */
  predicate Relapses(states: seq<State>, k: nat)
    requires k + 1 < |states|
  {
    Relapsed(states[k].fields, states[k + 1].fields)
  }

  ghost predicate LastMark(states: seq<State>, steps: seq<Step>, j: nat, n: nat)
    requires j < n <= |steps| < |states|
  {
    Marks(states[j], steps[j]) && forall k :: j < k < n ==> !Relapses(states, k)
  }

  /** In the first `n` steps MarkRecoveryCaughtUp ran, and no entry into
      RECOVERING or FAILED followed. */
  ghost predicate MarkedSince(states: seq<State>, steps: seq<Step>, n: nat)
    requires n <= |steps| < |states|
  {
    exists j: nat :: j < n && LastMark(states, steps, j, n)
  }

  /** A reconcile that read REJOINED with the mark may rely on both: no other
      thread re-enters REJOINED, so if the node is there it never left. */
  ghost predicate Inv(s: State) {
    && Coherent(s.fields)
    && (s.reconcile.HasRead? && s.reconcile.faultState.Rejoined? && s.reconcile.caughtUp ==>
          s.fields.faultState.Rejoined? ==> s.fields.recoveryCaughtUp)
  }

  /** A transition keeps the fields coherent, and no thread but reconcile's own
      write moves the node into REJOINED. */
  lemma SetFaultIsSafe(m: Fields, next: FaultState, reason: string, now: int)
    requires Coherent(m)
    ensures var t := SetFault(m, next, reason, now);
            && Coherent(t)
            && (!next.Rejoined? && t.faultState.Rejoined? ==>
                  m.faultState.Rejoined? && t.recoveryCaughtUp == m.recoveryCaughtUp)
  {
  }

  lemma StepKeepsInv(s: State, step: Step)
    requires Inv(s)
    ensures Inv(Next(s, step))
  {
    match step
    case SessionEstablished(now) => SetFaultIsSafe(s.fields, Recovering, "zookeeper session established", now);
    case SessionLost(reason, now) => SetFaultIsSafe(s.fields, Failed, reason, now);
    case CaughtUp =>
    case CatchUpFailed(_) =>
    case ReconcileRead(_) =>
    case ReconcileMark =>
    case ReconcileWrite(now) =>
      SetFaultIsSafe(s.fields, Rejoined, "catch-up complete; node rejoined cluster", now);
      SetFaultIsSafe(s.fields, Healthy, "recovery complete; node operating normally", now);
  }

  // ---------------------------------------------------------------- what each step must do

  /** Losing the session fails the node from every state and takes its mark,
      unless it had failed already: a mark made since then stays. */
  lemma SessionLossFails(s: State, reason: string, now: int)
    requires Coherent(s.fields)
    ensures var t := Next(s, SessionLost(reason, now));
            && t.fields.faultState == Failed && t.reconcile == s.reconcile
            && (t.fields.recoveryCaughtUp <==> s.fields.faultState == Failed && s.fields.recoveryCaughtUp)
            && t.fields.lastFaultReason == (if reason != "" then reason else s.fields.lastFaultReason)
  {
  }

  /** A new session makes the node recover, without a mark, from HEALTHY and FAILED;
      a node that recovers or has rejoined already is left as it is. */
  lemma SessionStartsRecovery(s: State, now: int)
    requires Coherent(s.fields)
    ensures var t := Next(s, SessionEstablished(now));
            && t.reconcile == s.reconcile
            && (s.fields.faultState in {Healthy, Failed} ==>
                  && t.fields.faultState == Recovering && !t.fields.recoveryCaughtUp
                  && t.fields.lastStateChange == Some(now))
            && (s.fields.faultState == Recovering ==>
                  t.fields == s.fields.(lastFaultReason := t.fields.lastFaultReason))
            && (s.fields.faultState == Rejoined ==> t == s)
            && (s.fields.faultState != Rejoined ==> t.fields.lastFaultReason == "zookeeper session established")
  {
  }

  /** One undisturbed pass of the reconcile thread. */
  function Pass(s: State, leader: bool, now: int): State {
    Next(Next(Next(s, ReconcileRead(leader)), ReconcileMark), ReconcileWrite(now))
  }

  /** A pass moves a marked node one state on, a leader marks itself first, and an
      unmarked follower, like a HEALTHY or FAILED node, stays where it is. */
  lemma PassMovesOn(s: State, leader: bool, now: int)
    requires Coherent(s.fields)
    ensures var t, marked := Pass(s, leader, now), s.fields.recoveryCaughtUp || leader;
            && t.reconcile == Outside && t.fields.recoveryCaughtUp == marked
            && t.fields.faultState == (if marked && s.fields.faultState == Recovering then Rejoined
                                       else if marked && s.fields.faultState == Rejoined then Healthy
                                       else s.fields.faultState)
            && (t.fields.faultState != s.fields.faultState ==>
                  && t.fields.lastStateChange == Some(now)
                  && t.fields.lastFaultReason == if t.fields.faultState == Rejoined
                                                 then "catch-up complete; node rejoined cluster"
                                                 else "recovery complete; node operating normally")
  {
  }

  lemma PassKeepsCoherent(s: State, leader: bool, now: int)
    requires Coherent(s.fields)
    ensures Coherent(Pass(s, leader, now).fields)
  {
    SetFaultIsSafe(Next(Next(s, ReconcileRead(leader)), ReconcileMark).fields, Rejoined,
                   "catch-up complete; node rejoined cluster", now);
    SetFaultIsSafe(Next(Next(s, ReconcileRead(leader)), ReconcileMark).fields, Healthy,
                   "recovery complete; node operating normally", now);
  }

  /** So recovery completes: with a mark, or as leader, two undisturbed passes lead
      from RECOVERING to HEALTHY. */
  lemma RecoveryCompletes(s: State, leader: bool, now: int, later: int)
    requires Coherent(s.fields) && s.fields.faultState == Recovering && (s.fields.recoveryCaughtUp || leader)
    ensures var t := Pass(Pass(s, leader, now), leader, later);
            && t.fields.faultState == Healthy && t.fields.recoveryCaughtUp
            && t.fields.lastRecoveryTime == Some(later) && !t.fields.recoveryInProgress
  {
    PassMovesOn(s, leader, now);
    PassKeepsCoherent(s, leader, now);
  }

  lemma SetFaultMovesFlag(m: Fields, next: FaultState, reason: string, now: int)
    ensures var t := SetFault(m, next, reason, now);
            t.recoveryCaughtUp <==> m.recoveryCaughtUp && !Relapsed(m, t)
  {
  }

  /** What a step does to the shared flag. */
  lemma StepMovesFlag(s: State, step: Step)
    requires Coherent(s.fields)
    ensures var t := Next(s, step);
            && (t.fields.recoveryCaughtUp <==>
                  Marks(s, step) || (s.fields.recoveryCaughtUp && !Relapsed(s.fields, t.fields)))
            && (Marks(s, step) ==> !Relapsed(s.fields, t.fields))
  {
    match step
    case SessionEstablished(now) => SetFaultMovesFlag(s.fields, Recovering, "zookeeper session established", now);
    case SessionLost(reason, now) => SetFaultMovesFlag(s.fields, Failed, reason, now);
    case ReconcileWrite(now) =>
      SetFaultMovesFlag(s.fields, Rejoined, "catch-up complete; node rejoined cluster", now);
      SetFaultMovesFlag(s.fields, Healthy, "recovery complete; node operating normally", now);
    case _ =>
  }

  lemma {:induction false} RunKeepsInv(states: seq<State>, steps: seq<Step>, n: nat)
    requires Run(states, steps) && n <= |steps|
    ensures Inv(states[n])
  {
    if n == 0 {
    } else {
      RunKeepsInv(states, steps, n - 1);
      StepKeepsInv(states[n - 1], steps[n - 1]);
      assert states[n - 1 + 1] == Next(states[n - 1], steps[n - 1]);
    }
  }

  /** The shared flag is exact: it is up iff the node was marked since it last
      entered RECOVERING or FAILED, however the threads interleave. */
  lemma {:induction false} FlagIsExact(states: seq<State>, steps: seq<Step>, n: nat)
    requires Run(states, steps) && n <= |steps|
    ensures states[n].fields.recoveryCaughtUp <==> MarkedSince(states, steps, n)
  {
    if n == 0 {
    } else {
      var k := n - 1;
      FlagIsExact(states, steps, k);
      RunKeepsInv(states, steps, k);
      StepMovesFlag(states[k], steps[k]);
      assert states[k + 1] == Next(states[k], steps[k]);
      FlagFollows(states, steps, k);
    }
  }

  /** MarkedSince moves with the flag. */
  lemma FlagFollows(states: seq<State>, steps: seq<Step>, k: nat)
    requires k < |steps| < |states|
    ensures MarkedSince(states, steps, k + 1)
            <==> Marks(states[k], steps[k]) || (MarkedSince(states, steps, k) && !Relapses(states, k))
  {
    if Marks(states[k], steps[k]) {
      assert LastMark(states, steps, k, k + 1);
    } else {
      forall j: nat | j < k
        ensures LastMark(states, steps, j, k + 1) <==> LastMark(states, steps, j, k) && !Relapses(states, k)
      {
      }
      if MarkedSince(states, steps, k + 1) {
        var j: nat :| j < k + 1 && LastMark(states, steps, j, k + 1);
        assert j < k && LastMark(states, steps, j, k);
      }
      if MarkedSince(states, steps, k) && !Relapses(states, k) {
        var j: nat :| j < k && LastMark(states, steps, j, k);
        assert LastMark(states, steps, j, k + 1);
      }
    }
  }

  lemma EntersHealthyWithFlag(s: State, step: Step)
    requires Inv(s) && !s.fields.faultState.Healthy? && Next(s, step).fields.faultState.Healthy?
    ensures s.fields.recoveryCaughtUp
  {
  }

  /** A node enters HEALTHY only if MarkRecoveryCaughtUp ran since its last entry
      into RECOVERING or FAILED, although reconcile reads and writes in separate
      lock regions. */
  lemma HealthyIsHonest(states: seq<State>, steps: seq<Step>, k: nat)
    requires Run(states, steps) && k < |steps| && Enters(states, k, Healthy)
    ensures MarkedSince(states, steps, k)
  {
    RunKeepsInv(states, steps, k);
    EntersHealthyWithFlag(states[k], steps[k]);
    FlagIsExact(states, steps, k);
  }

  // ---------------------------------------------------------------- entering REJOINED

  /** The reconcile under way before step `n` did its reading in step `r`. */
  predicate ReadAt(steps: seq<Step>, r: nat, n: nat)
    requires r < n <= |steps|
  {
    steps[r].ReconcileRead? && forall k :: r < k < n ==> !steps[k].ReconcileRead? && !steps[k].ReconcileWrite?
  }

  ghost predicate LastRelapse(states: seq<State>, steps: seq<Step>, j: nat, n: nat)
    requires j < n <= |steps| < |states|
  {
    Relapses(states, j) && forall k :: j < k < n ==> !Marks(states[k], steps[k])
  }

  /** From step `r` on the node relapsed, and it was not marked again. */
  ghost predicate RelapsedSince(states: seq<State>, steps: seq<Step>, r: nat, n: nat)
    requires n <= |steps| < |states|
  {
    exists j: nat :: r <= j < n && LastRelapse(states, steps, j, n)
  }

  lemma {:induction false} ReadPrecedes(states: seq<State>, steps: seq<Step>, n: nat) returns (r: nat)
    requires Run(states, steps) && n <= |steps| && states[n].reconcile.HasRead?
    ensures r < n && ReadAt(steps, r, n)
  {
    assert n > 0;
    assert states[n - 1 + 1] == Next(states[n - 1], steps[n - 1]);
    if steps[n - 1].ReconcileRead? {
      r := n - 1;
    } else {
      r := ReadPrecedes(states, steps, n - 1);
    }
  }

  lemma RelapseFollows(states: seq<State>, steps: seq<Step>, r: nat, k: nat)
    requires r <= k < |steps| < |states|
    ensures RelapsedSince(states, steps, r, k + 1)
            <==> Relapses(states, k) || (RelapsedSince(states, steps, r, k) && !Marks(states[k], steps[k]))
  {
    if Relapses(states, k) {
      assert LastRelapse(states, steps, k, k + 1);
    } else {
      if RelapsedSince(states, steps, r, k + 1) {
        var j: nat :| r <= j < k + 1 && LastRelapse(states, steps, j, k + 1);
        assert j < k && LastRelapse(states, steps, j, k);
      }
      if RelapsedSince(states, steps, r, k) && !Marks(states[k], steps[k]) {
        var j: nat :| r <= j < k && LastRelapse(states, steps, j, k);
        assert LastRelapse(states, steps, j, k + 1);
      }
    }
  }

  /** What became of the flag since a reconcile that found or set it. */
  lemma {:induction false} FlagSinceRead(states: seq<State>, steps: seq<Step>, r: nat, n: nat)
    requires Run(states, steps) && r < n <= |steps| && ReadAt(steps, r, n)
    ensures states[n].reconcile.HasRead?
    ensures states[n].reconcile.caughtUp ==>
              (states[n].fields.recoveryCaughtUp <==> !RelapsedSince(states, steps, r, n))
    decreases n
  {
    var k := n - 1;
    assert states[k + 1] == Next(states[k], steps[k]);
    RunKeepsInv(states, steps, k);
    StepMovesFlag(states[k], steps[k]);
    RelapseFollows(states, steps, r, k);
    if k == r {
      assert !RelapsedSince(states, steps, r, r);
    } else {
      FlagSinceRead(states, steps, r, k);
    }
  }

  lemma EntersRejoinedOnRead(s: State, step: Step)
    requires Inv(s) && !s.fields.faultState.Rejoined? && Next(s, step).fields.faultState.Rejoined?
    ensures s.reconcile.HasRead? && s.reconcile.caughtUp
  {
  }

  /** REJOINED makes no such promise: an entry is backed by a mark exactly when
      the node has not relapsed, unmarked since, after reconcile's read `r`. */
  lemma RejoinedIsHonestIff(states: seq<State>, steps: seq<Step>, k: nat) returns (r: nat)
    requires Run(states, steps) && k < |steps| && Enters(states, k, Rejoined)
    ensures r < k && ReadAt(steps, r, k)
    ensures MarkedSince(states, steps, k) <==> !RelapsedSince(states, steps, r, k)
  {
    RunKeepsInv(states, steps, k);
    EntersRejoinedOnRead(states[k], steps[k]);
    r := ReadPrecedes(states, steps, k);
    FlagSinceRead(states, steps, r, k);
    FlagIsExact(states, steps, k);
  }

  /** It can be unbacked, when a session is lost and re-established between
      reconcile's read and its write. */
  lemma RejoinedCanBeStale() returns (states: seq<State>, steps: seq<Step>)
    ensures Run(states, steps) && |steps| == 5 && Enters(states, 4, Rejoined) && !MarkedSince(states, steps, 4)
  {
    steps := [CaughtUp, ReconcileRead(false), SessionLost("zookeeper disconnected", 0), SessionEstablished(0),
              ReconcileWrite(0)];
    var s1 := Next(INIT, steps[0]);
    var s2 := Next(s1, steps[1]);
    var s3 := Next(s2, steps[2]);
    var s4 := Next(s3, steps[3]);
    states := [INIT, s1, s2, s3, s4, Next(s4, steps[4])];
    assert s4.fields.faultState == Recovering && !s4.fields.recoveryCaughtUp;
    FlagIsExact(states, steps, 4);
  }
}
