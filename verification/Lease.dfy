/** The leader lease (internal/coordination/lease.go): an ephemeral node that is
    created, stamped with a term, overwritten and deleted in separate steps. */
module Lease {
  import opened Wrappers
  import opened Counters

  /** A running node process. Distinct instances may be configured with the
      same node id; `Names` gives each its id. */
  type Instance = nat
  type Names = Instance -> string

  datatype LeaseData = LeaseData(leaderID: string, term: int)

  /** The leader node: the session that owns it, and, as history, its creator
      and whether its lease was overwritten since. */
  datatype LeaderNode = LeaderNode(owner: nat, lease: LeaseData, creator: Instance, stamped: bool)

  /** Where tryAcquireLeaderLease stands. `write` is history: the position of
      this thread's own term write. */
  datatype Thread =
    | Idle
    | SawNone
    | Created
    | TermRead(term: int, version: nat)
    | TermWritten(term: int, write: nat)
    | Releasing
    | Deleting

  /** `writes` is the history of term writes, by instance and value, and `won`
      the positions in it of the elections that were won. */
  datatype State = State(
    leader: Option<LeaderNode>,
    term: Register,
    sessions: map<Instance, nat>,
    lastSession: nat,
    threads: map<Instance, Thread>,
    writes: seq<(Instance, int)>,
    won: seq<nat>)

  const INIT := State(None, Register(0, 0), map[], 0, map[], [], [])

  function ThreadOf(s: State, i: Instance): Thread {
    if i in s.threads then s.threads[i] else Idle
  }

  /** verifyLeadershipStillHeld */
  predicate Held(names: Names, s: State, i: Instance) {
    && s.leader.Some? && i in s.sessions
    && s.leader.value.owner == s.sessions[i]
    && s.leader.value.lease.leaderID == names(i)
  }

  datatype Step =
    | Connect(who: Instance)      // a new session
    | Expire(who: Instance)       // it ends, and its ephemeral node with it
    | FindNone(who: Instance)
    | Create(who: Instance)
    | GetTerm(who: Instance)
    | SetTerm(who: Instance)
    | Stamp(who: Instance)        // the unconditional Set of the final lease
    | GiveUp(who: Instance)       // a failed call after Create
    | VerifyForRelease(who: Instance)
    | Delete(who: Instance)       // unconditional, whoever owns the node by now

  predicate Enabled(s: State, step: Step) {
    var i := step.who;
    match step
    case Connect(_) => i !in s.sessions
    case Expire(_) => i in s.sessions
    case FindNone(_) => ThreadOf(s, i).Idle? && s.leader.None?
    case Create(_) => i in s.sessions && ThreadOf(s, i).SawNone?
    case GetTerm(_) => ThreadOf(s, i).Created?
    case SetTerm(_) => ThreadOf(s, i).TermRead?
    case Stamp(_) => i in s.sessions && ThreadOf(s, i).TermWritten? && s.leader.Some?
    case GiveUp(_) => ThreadOf(s, i).Created? || ThreadOf(s, i).TermRead? || ThreadOf(s, i).TermWritten?
    case VerifyForRelease(_) => ThreadOf(s, i).Releasing?
    case Delete(_) => i in s.sessions && ThreadOf(s, i).Deleting?
  }

  function Moved(s: State, i: Instance, t: Thread): State {
    s.(threads := s.threads[i := t])
  }

  function Next(names: Names, s: State, step: Step): State
    requires Enabled(s, step)
  {
    var i := step.who;
    var thread := ThreadOf(s, i);
    match step
    case Connect(_) => s.(sessions := s.sessions[i := s.lastSession + 1], lastSession := s.lastSession + 1)
    case Expire(_) =>
      s.(sessions := s.sessions - {i},
         leader := if s.leader.Some? && s.leader.value.owner == s.sessions[i] then None else s.leader)
    case FindNone(_) => Moved(s, i, SawNone)
    case Create(_) =>
      if s.leader.None?
      then Moved(s, i, Created).(leader := Some(LeaderNode(s.sessions[i], LeaseData(names(i), 0), i, false)))
      else Moved(s, i, Idle)
    case GetTerm(_) => Moved(s, i, TermRead(s.term.value, s.term.version))
    case SetTerm(_) =>
      if thread.version == s.term.version
      then
        var next := Wrap64(thread.term + 1);
        Moved(s, i, TermWritten(next, |s.writes|))
        .(term := Register(next, s.term.version + 1), writes := s.writes + [(i, next)])
      else Moved(s, i, Created)
    case Stamp(_) =>
      Moved(s, i, Idle)
      .(leader := Some(s.leader.value.(lease := LeaseData(names(i), thread.term), stamped := true)),
        won := s.won + [thread.write])
    case GiveUp(_) => Moved(s, i, Releasing)
    case VerifyForRelease(_) => Moved(s, i, if Held(names, s, i) then Deleting else Idle)
    case Delete(_) => Moved(s, i, Idle).(leader := None)
  }

  ghost predicate Run(names: Names, states: seq<State>, steps: seq<Step>) {
    && |states| == |steps| + 1
    && states[0] == INIT
    && forall k :: 0 <= k < |steps| ==>
         Enabled(states[k], steps[k]) && states[k + 1] == Next(names, states[k], steps[k])
  }

  // ---------------------------------------------------------------- the invariant

  ghost predicate SessionsInv(s: State) {
    && (forall i :: i in s.sessions ==> s.sessions[i] <= s.lastSession)
    && (forall i, j :: i in s.sessions && j in s.sessions && s.sessions[i] == s.sessions[j] ==> i == j)
    && (s.leader.Some? ==>
          && s.leader.value.owner <= s.lastSession
          && s.leader.value.creator in s.sessions && s.sessions[s.leader.value.creator] == s.leader.value.owner)
  }

  ghost predicate OwnWrite(s: State, i: Instance, term: int, w: nat) {
    w < |s.writes| && s.writes[w] == (i, term)
  }

  ghost predicate TermsInv(s: State) {
    && s.term.version == |s.writes|
    && s.term.value == Wrap64(|s.writes|)
    && (forall k :: 0 <= k < |s.writes| ==> s.writes[k].1 == Wrap64(k + 1))
    && (forall i :: i in s.threads && s.threads[i].TermRead? ==>
          s.threads[i].version <= s.term.version
          && (s.threads[i].version == s.term.version ==> s.threads[i].term == s.term.value))
  }

  ghost predicate WinsInv(names: Names, s: State) {
    && (forall i :: i in s.threads && s.threads[i].TermWritten? ==>
          OwnWrite(s, i, s.threads[i].term, s.threads[i].write) && s.threads[i].write !in s.won)
    && (forall a, b :: 0 <= a < b < |s.won| ==> s.won[a] != s.won[b])
    && (forall w :: w in s.won ==> w < |s.writes|)
    && (s.leader.Some? ==> if s.leader.value.stamped then Stamped(names, s, s.leader.value.lease)
                           else s.leader.value.lease == LeaseData(names(s.leader.value.creator), 0))
  }

  /** The lease names a node that won an election with exactly that term. */
  ghost predicate Stamped(names: Names, s: State, lease: LeaseData) {
    exists w :: w in s.won && w < |s.writes| && s.writes[w].1 == lease.term && names(s.writes[w].0) == lease.leaderID
  }

  ghost predicate Inv(names: Names, s: State) {
    SessionsInv(s) && TermsInv(s) && WinsInv(names, s)
  }

  lemma StepKeepsSessions(names: Names, s: State, step: Step)
    requires SessionsInv(s) && Enabled(s, step)
    ensures SessionsInv(Next(names, s, step))
  {
  }

  lemma StepKeepsTerms(names: Names, s: State, step: Step)
    requires TermsInv(s) && Enabled(s, step)
    ensures TermsInv(Next(names, s, step))
  {
    WrapAdd(|s.writes|, 1);
  }

  lemma StepKeepsWins(names: Names, s: State, step: Step)
    requires WinsInv(names, s) && Enabled(s, step)
    ensures WinsInv(names, Next(names, s, step))
  {
  }

  lemma {:induction false} RunKeepsInv(names: Names, states: seq<State>, steps: seq<Step>, k: nat)
    requires Run(names, states, steps) && k <= |steps|
    ensures Inv(names, states[k])
  {
    if k == 0 {
    } else {
      RunKeepsInv(names, states, steps, k - 1);
      var s, step := states[k - 1], steps[k - 1];
      assert states[k - 1 + 1] == Next(names, s, step);
      StepKeepsSessions(names, s, step);
      StepKeepsTerms(names, s, step);
      StepKeepsWins(names, s, step);
    }
  }

  // ---------------------------------------------------------------- the node's life

  /** When the leader node appears and goes: it is created by an instance with a
      session, when there is none, and an instance that finds one there gives up;
      it goes with its owner's session or by a Delete; and meanwhile only its lease
      is overwritten. */
  lemma LeaderNodeLife(names: Names, s: State, step: Step)
    requires SessionsInv(s) && Enabled(s, step)
    ensures var t := Next(names, s, step);
            && (s.leader.None? ==> (t.leader.Some? <==> step.Create?))
            && (s.leader.None? && step.Create? ==>
                  t.leader == Some(LeaderNode(s.sessions[step.who], LeaseData(names(step.who), 0), step.who, false)))
            && (step.Create? ==>
                  if s.leader.None? then ThreadOf(t, step.who).Created?
                  else ThreadOf(t, step.who).Idle? && t == s.(threads := t.threads))
            && (s.leader.Some? ==>
                  && (t.leader.None? <==> step.Delete? || step == Expire(s.leader.value.creator))
                  && (t.leader.Some? && !step.Stamp? ==> t.leader == s.leader)
                  && (t.leader.Some? ==> t.leader.value.owner == s.leader.value.owner
                                         && t.leader.value.creator == s.leader.value.creator))
  {
  }

  /** An instance comes to delete the node only by having held the lease when it
      checked. The check and the Delete are apart, so the node it then deletes may
      be another's. */
  lemma OnlyHoldersComeToDelete(names: Names, s: State, step: Step, i: Instance)
    requires Enabled(s, step) && !ThreadOf(s, i).Deleting? && ThreadOf(Next(names, s, step), i).Deleting?
    ensures step == VerifyForRelease(i) && Held(names, s, i)
  {
  }

  /** An undisturbed release by the holder leaves no leader node; by anyone else it
      leaves everything but its own thread as it was. */
  lemma ReleaseDeletesOwnLease(names: Names, s: State, i: Instance)
    requires ThreadOf(s, i).Releasing?
    ensures Enabled(s, VerifyForRelease(i))
    ensures var t := Next(names, s, VerifyForRelease(i));
            if Held(names, s, i) then Enabled(t, Delete(i)) && Next(names, t, Delete(i)).leader.None?
            else t == s.(threads := t.threads) && ThreadOf(t, i).Idle?
  {
  }

  /** A thread that gives up after its Create releases what it holds. */
  lemma GivingUpReleases(names: Names, s: State, i: Instance)
    requires Enabled(s, GiveUp(i)) && Held(names, s, i)
    ensures var t := Next(names, s, GiveUp(i));
            var u := Next(names, t, VerifyForRelease(i));
            Enabled(t, VerifyForRelease(i)) && Enabled(u, Delete(i)) && Next(names, u, Delete(i)).leader.None?
  {
    ReleaseDeletesOwnLease(names, Next(names, s, GiveUp(i)), i);
  }

  /** A lost race for the term is run again. */
  lemma LostTermRaceRetries(names: Names, s: State, i: Instance)
    requires Enabled(s, SetTerm(i))
    ensures var t := Next(names, s, SetTerm(i));
            if ThreadOf(s, i).version == s.term.version
            then ThreadOf(t, i).TermWritten? && t.writes == s.writes + [(i, t.term.value)]
            else t == s.(threads := t.threads) && Enabled(t, GetTerm(i))
  {
  }

  /** Undisturbed, an election is won: from its Create an instance takes the next
      term, stamps the lease with it, and holds it. */
  lemma ElectionCompletes(names: Names, s: State, i: Instance)
    requires TermsInv(s) && ThreadOf(s, i).Created? && Held(names, s, i)
    ensures var t := Next(names, s, GetTerm(i));
            var u := Next(names, t, SetTerm(i));
            var v := Next(names, u, Stamp(i));
            && Enabled(s, GetTerm(i)) && Enabled(t, SetTerm(i)) && Enabled(u, Stamp(i))
            && v.leader.Some? && v.leader.value.lease == LeaseData(names(i), Wrap64(|s.writes| + 1))
            && v.won == s.won + [|s.writes|] && ThreadOf(v, i).Idle? && Held(names, v, i)
  {
    WrapAdd(|s.writes|, 1);
  }

  // ---------------------------------------------------------------- the theorems

  /** At any instant at most one instance passes the leadership check, even among
      instances that share a node id; and it created the very node it holds. */
  lemma LeaseExclusion(names: Names, states: seq<State>, steps: seq<Step>, k: nat, i: Instance, j: Instance)
    requires Run(names, states, steps) && k <= |steps|
    requires Held(names, states[k], i)
    ensures Held(names, states[k], j) ==> i == j
    ensures states[k].leader.value.creator == i
  {
    RunKeepsInv(names, states, steps, k);
  }

  /** The terms written, and so those of the elections won, number the writes. */
  lemma TermsNumberTheWrites(names: Names, s: State)
    requires Inv(names, s) && |s.writes| < TWO_TO_THE_63
    ensures forall n :: 0 <= n < |s.writes| ==> s.writes[n].1 == n + 1
  {
    forall n | 0 <= n < |s.writes|
      ensures s.writes[n].1 == n + 1
    {
      assert Wrap64(n + 1) == n + 1;
    }
  }

  /** Terms increase in the order of counter writes, and the elections won have
      pairwise distinct terms, as long as the counter has not wrapped. */
  lemma FencingTerms(names: Names, states: seq<State>, steps: seq<Step>, k: nat)
    requires Run(names, states, steps) && k <= |steps|
    requires |states[k].writes| < TWO_TO_THE_63
    ensures var s := states[k];
            && (forall a, b :: 0 <= a < b < |s.writes| ==> 0 < s.writes[a].1 < s.writes[b].1)
            && (forall a, b :: 0 <= a < b < |s.won| ==>
                  s.won[a] < |s.writes| && s.won[b] < |s.writes| && s.writes[s.won[a]].1 != s.writes[s.won[b]].1)
  {
    RunKeepsInv(names, states, steps, k);
    var s := states[k];
    TermsNumberTheWrites(names, s);
    forall a | 0 <= a < |s.won|
      ensures s.won[a] < |s.writes|
    {
      assert s.won[a] in s.won;
    }
  }

  /** A lease shows term zero exactly until it is first overwritten; from then
      on it names the winner of the election with its term. */
  lemma TermZeroIffUnstamped(names: Names, states: seq<State>, steps: seq<Step>, k: nat)
    requires Run(names, states, steps) && k <= |steps|
    requires |states[k].writes| < TWO_TO_THE_63 && states[k].leader.Some?
    ensures var node := states[k].leader.value;
            && (node.lease.term == 0 <==> !node.stamped)
            && (node.stamped ==> Stamped(names, states[k], node.lease))
  {
    RunKeepsInv(names, states, steps, k);
    TermsNumberTheWrites(names, states[k]);
  }

  /** A winner may stamp a lease that is no longer its own. Right after, exactly
      the node's creator passes the check, and only if it has the name stamped:
      with distinct names nobody does, when the winner is stale. */
  lemma HeldAfterStamp(names: Names, states: seq<State>, steps: seq<Step>, k: nat, j: Instance)
    requires Run(names, states, steps) && k < |steps| && steps[k].Stamp?
    ensures states[k].leader.Some?
    ensures var creator := states[k].leader.value.creator;
            Held(names, states[k + 1], j) <==> j == creator && names(creator) == names(steps[k].who)
  {
    RunKeepsInv(names, states, steps, k);
    assert states[k + 1] == Next(names, states[k], steps[k]);
  }

  /** Before it is stamped, a held lease shows term zero. */
  lemma HeldBeforeStamped(names: Names) returns (states: seq<State>, steps: seq<Step>)
    ensures Run(names, states, steps)
    ensures Held(names, states[|steps|], 0) && states[|steps|].leader.value.lease.term == 0
  {
    steps := [Connect(0), FindNone(0), Create(0)];
    var s1 := Next(names, INIT, steps[0]);
    var s2 := Next(names, s1, steps[1]);
    states := [INIT, s1, s2, Next(names, s2, steps[2])];
  }
}
