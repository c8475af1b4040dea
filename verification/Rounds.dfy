/** Many catch-up rounds against a leader that keeps working
    (cmd/quorapay-node/main.go: runFollowerCatchUpLoop). The leader may act
    between any two turns of the apply loop. */
module Rounds {
  import opened Wrappers
  import opened Replication
  import opened Storage
  import opened CatchUp

  /** A leader, one follower that is fed by catch-up alone, and what the follower
      still has to apply of the last answer it was given. */
  datatype Pair = Pair(leader: Ledger, follower: Ledger, answer: seq<Payment>)

  const START := Pair(EMPTY, EMPTY, [])

  datatype Event =
    | LeaderAppends(entry: LogEntry)
    | LeaderFinalizes(pid: PaymentId, target: Status)
    | Ask                              // a round begins; an unfinished one is abandoned
    | Try(insertDb: Db, finalDb: Db)   // one turn of the apply loop

  /** The turn runs both its statements. */
  predicate Applies(ev: Event) {
    ev.Try? && ev.insertDb.exec && ev.finalDb.exec
  }

  /** No other finalized row has the row's index, as in every reachable ledger of
      the cluster (ClusterTheorems.OneIndexOnePayment). */
  ghost predicate IndexIsFree(l: Ledger, p: PaymentId)
    requires Has(l, p)
  {
    forall q :: FinalStatus(l, q).Some? ==> l.rows[q].logIndex != l.rows[p].logIndex
  }

  ghost predicate Enabled(s: Pair, ev: Event) {
    match ev
    case LeaderAppends(e) => ValidEntry(e) && e.status.Pending?
    case LeaderFinalizes(p, t) => Terminal(t) && (StatusIs(s.leader, p, Pending) ==> IndexIsFree(s.leader, p))
    case Ask => true
    case Try(_, _) => s.answer != []
  }

  ghost function Next(s: Pair, ev: Event): Pair
    requires WellFormed(s.leader) && WellFormed(s.follower) && Enabled(s, ev)
  {
    match ev
    case LeaderAppends(e) => s.(leader := Insert(s.leader, e))
    case LeaderFinalizes(p, t) => s.(leader := Update(s.leader, p, t))
    case Ask => s.(answer := Listing(s.leader, Head(s.follower)))
    case Try(insertDb, finalDb) =>
      s.(follower := ApplyEntry(s.follower, EntryOf(s.answer[0]), insertDb, finalDb).0, answer := s.answer[1..])
  }

  ghost predicate Run(states: seq<Pair>, events: seq<Event>) {
    && |states| == |events| + 1
    && states[0] == START
    && forall k :: 0 <= k < |events| ==>
         && WellFormed(states[k].leader) && WellFormed(states[k].follower)
         && Enabled(states[k], events[k]) && states[k + 1] == Next(states[k], events[k])
  }

  // ---------------------------------------------------------------- what every run keeps

  ghost predicate OneFinalPerIndex(l: Ledger) {
    forall p, q :: FinalStatus(l, p).Some? && FinalStatus(l, q).Some? && l.rows[p].logIndex == l.rows[q].logIndex ==>
                     p == q
  }

  /** The follower's rows are copies of finalized rows; a copy stays PENDING when
      the loop stopped between its INSERT and its UPDATE. */
  ghost predicate Mirrors(leader: Ledger, follower: Ledger) {
    forall p :: Has(follower, p) ==>
      && FinalStatus(leader, p).Some?
      && (FinalStatus(follower, p).Some? ==> FinalStatus(follower, p) == FinalStatus(leader, p))
      && follower.rows[p].logIndex == leader.rows[p].logIndex
  }

  /** What is left of the answer are finalized rows above the head, in order. */
  ghost predicate Pends(s: Pair)
    requires WellFormed(s.follower)
  {
    && (forall r :: r in s.answer ==> Listed(s.leader, Head(s.follower), r))
    && (forall i, j :: 0 <= i < j < |s.answer| ==> s.answer[i].logIndex < s.answer[j].logIndex)
  }

  ghost predicate Inv(s: Pair) {
    && WellFormed(s.leader) && WellFormed(s.follower)
    && OneFinalPerIndex(s.leader) && Mirrors(s.leader, s.follower) && Pends(s)
  }

  /** The event leaves a payment behind: the leader finalizes it at or below the
      follower's head, or the follower applies a later one first. */
  ghost predicate OpensGap(s: Pair, ev: Event)
    requires WellFormed(s.follower) && Enabled(s, ev)
  {
    match ev
    case LeaderFinalizes(p, _) => StatusIs(s.leader, p, Pending) && s.leader.rows[p].logIndex <= Head(s.follower)
    case Try(_, _) => Applies(ev) && exists p :: LeftBehind(s, s.answer[0], p)
    case _ => false
  }

  ghost predicate LeftBehind(s: Pair, r: Payment, p: PaymentId) {
    && p != r.paymentID && FinalStatus(s.leader, p).Some? && s.leader.rows[p].logIndex <= r.logIndex
    && FinalStatus(s.follower, p).None?
  }

  // ---------------------------------------------------------------- the leader's events

  lemma AppendStep(s: Pair, e: LogEntry)
    requires Inv(s) && Enabled(s, LeaderAppends(e))
    ensures var t := Next(s, LeaderAppends(e)); Inv(t) && (NoGap(t.leader, t.follower) <==> NoGap(s.leader, s.follower))
  {
    var l := Insert(s.leader, e);
    InsertExtends(s.leader, e);
    forall p
      ensures FinalStatus(l, p) == FinalStatus(s.leader, p)
      ensures FinalStatus(l, p).Some? ==> l.rows[p] == s.leader.rows[p]
    {
    }
  }

  lemma FinalizeAddsOne(l: Ledger, p: PaymentId, t: Status)
    requires WellFormed(l) && Terminal(t)
    ensures var l' := Update(l, p, t);
            && (forall q :: FinalStatus(l, q).Some? ==>
                  Has(l', q) && l'.rows[q] == l.rows[q] && FinalStatus(l', q) == FinalStatus(l, q))
            && (forall q :: FinalStatus(l', q).Some? && FinalStatus(l, q).None? ==>
                  q == p && StatusIs(l, p, Pending) && l'.rows[p].logIndex == l.rows[p].logIndex)
            && (StatusIs(l, p, Pending) ==> FinalStatus(l', p) == Some(t))
  {
  }

  lemma FinalizeStep(s: Pair, p: PaymentId, target: Status)
    requires Inv(s) && Enabled(s, LeaderFinalizes(p, target))
    ensures var ev := LeaderFinalizes(p, target);
            var t := Next(s, ev);
            && Inv(t)
            && (NoGap(t.leader, t.follower) <==> NoGap(s.leader, s.follower) && !OpensGap(s, ev))
  {
    UpdateExtends(s.leader, p, target);
    FinalizeAddsOne(s.leader, p, target);
  }

  // ---------------------------------------------------------------- the follower's events

  lemma AskStep(s: Pair)
    requires Inv(s)
    ensures Inv(Next(s, Ask))
  {
    var items := Listing(s.leader, Head(s.follower));
    forall i, j | 0 <= i < j < |items|
      ensures items[i].logIndex < items[j].logIndex
    {
      assert items[i] in items && items[j] in items && Before(items[i], items[j]);
    }
  }

  /** `after` has the follower's finals and, if the turn applied it, the row's. */
  ghost predicate FinalsAfter(leader: Ledger, follower: Ledger, r: Payment, after: Ledger, applied: bool) {
    forall p :: FinalStatus(after, p) ==
                if p == r.paymentID && applied then FinalStatus(leader, p) else FinalStatus(follower, p)
  }

  /** One turn at a finalized row of the leader. */
  lemma TurnSetsFinals(leader: Ledger, follower: Ledger, r: Payment, insertDb: Db, finalDb: Db)
    requires WellFormed(leader) && WellFormed(follower) && Mirrors(leader, follower)
    requires Has(leader, r.paymentID) && leader.rows[r.paymentID] == r && Terminal(r.status)
    ensures FinalsAfter(leader, follower, r, ApplyEntry(follower, EntryOf(r), insertDb, finalDb).0,
                        insertDb.exec && finalDb.exec)
  {
    assert RowWellFormed(leader, r.paymentID);
    TurnStatements(follower, EntryOf(r), insertDb, finalDb);
  }

  lemma TurnAddsItsRow(leader: Ledger, follower: Ledger, r: Payment, insertDb: Db, finalDb: Db)
    requires Has(leader, r.paymentID) && leader.rows[r.paymentID] == r && Terminal(r.status)
    ensures var after := ApplyEntry(follower, EntryOf(r), insertDb, finalDb).0;
            forall p :: Has(after, p) ==>
              if Has(follower, p) then after.rows[p].logIndex == follower.rows[p].logIndex
              else p == r.paymentID && after.rows[p].logIndex == r.logIndex
  {
    TurnStatements(follower, EntryOf(r), insertDb, finalDb);
  }

  lemma TurnKeepsMirrors(leader: Ledger, follower: Ledger, r: Payment, insertDb: Db, finalDb: Db)
    requires WellFormed(leader) && WellFormed(follower) && Mirrors(leader, follower)
    requires Has(leader, r.paymentID) && leader.rows[r.paymentID] == r && Terminal(r.status)
    ensures var after := ApplyEntry(follower, EntryOf(r), insertDb, finalDb).0;
            WellFormed(after) && Mirrors(leader, after)
  {
    ApplyEntryExtends(follower, EntryOf(r), insertDb, finalDb);
    TurnSetsFinals(leader, follower, r, insertDb, finalDb);
    TurnAddsItsRow(leader, follower, r, insertDb, finalDb);
  }

  /** The head, from what it must reach and must not exceed. */
  lemma HeadIs(leader: Ledger, l: Ledger, head: int)
    requires WellFormed(l) && Mirrors(leader, l)
    requires forall p :: FinalStatus(l, p).Some? ==> leader.rows[p].logIndex <= head
    requires head == 0 || exists p :: FinalStatus(l, p).Some? && leader.rows[p].logIndex == head
    ensures Head(l) == head
  {
  }

  lemma HeadAfterTurn(leader: Ledger, follower: Ledger, r: Payment, after: Ledger, applied: bool)
    requires WellFormed(leader) && WellFormed(follower) && WellFormed(after)
    requires Mirrors(leader, follower) && Mirrors(leader, after) && Listed(leader, Head(follower), r)
    requires FinalsAfter(leader, follower, r, after, applied)
    ensures Head(after) == if applied then r.logIndex else Head(follower)
  {
    HeadIs(leader, after, if applied then r.logIndex else Head(follower));
  }

  lemma TurnMovesHead(leader: Ledger, follower: Ledger, r: Payment, insertDb: Db, finalDb: Db)
    requires WellFormed(leader) && WellFormed(follower) && Mirrors(leader, follower)
    requires Listed(leader, Head(follower), r)
    ensures var after := ApplyEntry(follower, EntryOf(r), insertDb, finalDb).0;
            var applied := insertDb.exec && finalDb.exec;
            && WellFormed(after) && Mirrors(leader, after) && FinalsAfter(leader, follower, r, after, applied)
            && Head(after) == if applied then r.logIndex else Head(follower)
  {
    TurnSetsFinals(leader, follower, r, insertDb, finalDb);
    TurnKeepsMirrors(leader, follower, r, insertDb, finalDb);
    HeadAfterTurn(leader, follower, r, ApplyEntry(follower, EntryOf(r), insertDb, finalDb).0,
                  insertDb.exec && finalDb.exec);
  }

  /** A turn leaves a gap if there was one, or if it applied a row past another
      that the follower still lacks. */
  lemma GapAfterTurn(s: Pair, r: Payment, after: Ledger, applied: bool)
    requires Inv(s) && WellFormed(after) && Listed(s.leader, Head(s.follower), r)
    requires FinalsAfter(s.leader, s.follower, r, after, applied)
    requires Head(after) == if applied then r.logIndex else Head(s.follower)
    ensures NoGap(s.leader, after) <==>
            NoGap(s.leader, s.follower) && !(applied && exists p :: LeftBehind(s, r, p))
  {
    if NoGap(s.leader, after) {
      forall p | FinalStatus(s.leader, p).Some? && s.leader.rows[p].logIndex <= Head(after)
        ensures FinalStatus(s.follower, p) == FinalStatus(s.leader, p) || (applied && p == r.paymentID)
        ensures !(applied && LeftBehind(s, r, p))
      {
        assert FinalStatus(after, p) == FinalStatus(s.leader, p);
      }
    } else {
      var p :| FinalStatus(s.leader, p).Some? && s.leader.rows[p].logIndex <= Head(after)
               && FinalStatus(after, p) != FinalStatus(s.leader, p);
      assert FinalStatus(s.follower, p).None?;
      assert LeftBehind(s, r, p) || !applied;
    }
  }

  lemma InvAfterTurn(s: Pair, after: Ledger, applied: bool)
    requires Inv(s) && s.answer != [] && WellFormed(after) && Mirrors(s.leader, after)
    requires Head(after) == if applied then s.answer[0].logIndex else Head(s.follower)
    ensures Inv(Pair(s.leader, after, s.answer[1..]))
  {
    forall r | r in s.answer[1..]
      ensures Listed(s.leader, Head(after), r)
    {
      var i :| 0 <= i < |s.answer[1..]| && s.answer[1..][i] == r;
      assert r == s.answer[i + 1] && r in s.answer;
    }
  }

  lemma TryStep(s: Pair, insertDb: Db, finalDb: Db)
    requires Inv(s) && s.answer != []
    ensures var after := ApplyEntry(s.follower, EntryOf(s.answer[0]), insertDb, finalDb).0;
            && Inv(Pair(s.leader, after, s.answer[1..]))
            && (NoGap(s.leader, after) <==> NoGap(s.leader, s.follower) && !OpensGap(s, Try(insertDb, finalDb)))
  {
    var r := s.answer[0];
    assert r in s.answer;
    var after := ApplyEntry(s.follower, EntryOf(r), insertDb, finalDb).0;
    TurnMovesHead(s.leader, s.follower, r, insertDb, finalDb);
    InvAfterTurn(s, after, insertDb.exec && finalDb.exec);
    GapAfterTurn(s, r, after, insertDb.exec && finalDb.exec);
  }

  // ---------------------------------------------------------------- convergence, exactly

  lemma StepMovesGap(s: Pair, ev: Event)
    requires Inv(s) && Enabled(s, ev)
    ensures var t := Next(s, ev);
            && Inv(t)
            && (NoGap(t.leader, t.follower) <==> NoGap(s.leader, s.follower) && !OpensGap(s, ev))
  {
    match ev
    case LeaderAppends(e) => AppendStep(s, e);
    case LeaderFinalizes(p, target) => FinalizeStep(s, p, target);
    case Ask => AskStep(s);
    case Try(insertDb, finalDb) => TryStep(s, insertDb, finalDb);
  }

  lemma {:induction false} RunKeepsInv(states: seq<Pair>, events: seq<Event>, n: nat)
    requires Run(states, events) && n <= |events|
    ensures Inv(states[n])
    ensures NoGap(states[n].leader, states[n].follower) <==> forall k :: 0 <= k < n ==> !OpensGap(states[k], events[k])
  {
    if n == 0 {
    } else {
      RunKeepsInv(states, events, n - 1);
      StepMovesGap(states[n - 1], events[n - 1]);
      assert states[n - 1 + 1] == Next(states[n - 1], events[n - 1]);
    }
  }

  /** However appends, finalizations in any order, rounds, failed database calls
      and crashes interleave, the next error-free round makes the finalized maps
      equal if and only if no event so far left a payment behind. */
  lemma ConvergesIffNoGapOpened(states: seq<Pair>, events: seq<Event>)
    requires Run(states, events)
    ensures var s := states[|events|];
            && WellFormed(s.leader) && WellFormed(s.follower)
            && (Converges(s.leader, s.follower) <==>
                  forall k :: 0 <= k < |events| ==> !OpensGap(states[k], events[k]))
  {
    RunKeepsInv(states, events, |events|);
    var s := states[|events|];
    assert forall p :: FinalStatus(s.follower, p).Some? ==> Has(s.follower, p);
    OneRoundConverges(s.leader, s.follower);
  }

  // ---------------------------------------------------------------- an orderly leader and follower

  /** The leader finalizes in increasing index order. */
  ghost predicate InOrder(s: Pair, ev: Event)
    requires WellFormed(s.leader)
  {
    ev.LeaderFinalizes? && StatusIs(s.leader, ev.pid, Pending) ==> Head(s.leader) < s.leader.rows[ev.pid].logIndex
  }

  /** An entry of the current answer was not applied. */
  function Skipped(events: seq<Event>): bool {
    if events == [] then false
    else SkippedAfter(Skipped(events[..|events| - 1]), events[|events| - 1])
  }

  function SkippedAfter(before: bool, ev: Event): bool {
    if ev.Ask? then false else before || (ev.Try? && !Applies(ev))
  }

  /** No entry is applied after one of the same answer that was not. */
  ghost predicate NoneSkipped(events: seq<Event>) {
    forall k :: 0 <= k < |events| && Applies(events[k]) ==> !Skipped(events[..k])
  }

  /** Whatever the leader finalized above the head is still to come, or was
      finalized after the answer was given. */
  ghost predicate KeepsUp(s: Pair)
    requires WellFormed(s.follower)
  {
    forall p :: FinalStatus(s.leader, p).Some? && Head(s.follower) < s.leader.rows[p].logIndex ==>
      s.leader.rows[p] in s.answer || forall r :: r in s.answer ==> r.logIndex < s.leader.rows[p].logIndex
  }

  lemma MirrorsHead(leader: Ledger, follower: Ledger)
    requires WellFormed(leader) && WellFormed(follower) && Mirrors(leader, follower)
    ensures Head(follower) <= Head(leader)
  {
  }

  lemma OrderlyStepOpensNoGap(s: Pair, ev: Event)
    requires Inv(s) && Enabled(s, ev) && InOrder(s, ev) && NoGap(s.leader, s.follower)
    requires Applies(ev) ==> KeepsUp(s)
    ensures !OpensGap(s, ev)
  {
    MirrorsHead(s.leader, s.follower);
    if Applies(ev) {
      assert s.answer[0] in s.answer;
      assert forall r :: r in s.answer ==> s.answer[0].logIndex <= r.logIndex;
    }
  }

  lemma LeaderKeepsUp(s: Pair, ev: Event)
    requires Inv(s) && Enabled(s, ev) && InOrder(s, ev) && KeepsUp(s) && (ev.LeaderAppends? || ev.LeaderFinalizes?)
    ensures KeepsUp(Next(s, ev))
  {
    match ev
    case LeaderAppends(e) =>
    case LeaderFinalizes(p, target) =>
      FinalizeAddsOne(s.leader, p, target);
      forall r | r in s.answer
        ensures r.logIndex <= Head(s.leader)
      {
        assert Has(s.leader, r.paymentID);
      }
  }

  lemma AskKeepsUp(s: Pair)
    requires Inv(s)
    ensures KeepsUp(Next(s, Ask))
  {
    forall p | FinalStatus(s.leader, p).Some?
      ensures s.leader.rows[p] in Listing(s.leader, Head(s.follower)) <==> Head(s.follower) < s.leader.rows[p].logIndex
    {
      ListingHolds(s.leader, Head(s.follower), p);
    }
  }

  lemma TurnKeepsUp(s: Pair, after: Ledger)
    requires Inv(s) && KeepsUp(s) && s.answer != [] && WellFormed(after) && Head(after) == s.answer[0].logIndex
    ensures KeepsUp(Pair(s.leader, after, s.answer[1..]))
  {
    var r := s.answer[0];
    assert s.answer == [r] + s.answer[1..];
    assert Listed(s.leader, Head(s.follower), r);
  }

  /** An orderly event leaves no payment behind, and keeps up unless it skips. */
  lemma OrderlyStep(s: Pair, ev: Event, skipped: bool)
    requires Inv(s) && Enabled(s, ev) && InOrder(s, ev) && NoGap(s.leader, s.follower)
    requires !skipped ==> KeepsUp(s)
    requires Applies(ev) ==> !skipped
    ensures !OpensGap(s, ev)
    ensures var t := Next(s, ev);
            && Inv(t) && NoGap(t.leader, t.follower)
            && (!SkippedAfter(skipped, ev) ==> KeepsUp(t))
  {
    OrderlyStepOpensNoGap(s, ev);
    StepMovesGap(s, ev);
    match ev
    case Ask => AskKeepsUp(s);
    case Try(insertDb, finalDb) =>
      if !SkippedAfter(skipped, ev) {
        var r := s.answer[0];
        assert r in s.answer;
        TurnMovesHead(s.leader, s.follower, r, insertDb, finalDb);
        TurnKeepsUp(s, Next(s, ev).follower);
      }
    case _ =>
      if !skipped {
        LeaderKeepsUp(s, ev);
      }
  }

  lemma {:induction false} OrderlyRunKeepsUp(states: seq<Pair>, events: seq<Event>, n: nat)
    requires Run(states, events) && n <= |events| && NoneSkipped(events)
    requires forall k :: 0 <= k < |events| ==> InOrder(states[k], events[k])
    ensures Inv(states[n]) && NoGap(states[n].leader, states[n].follower)
    ensures !Skipped(events[..n]) ==> KeepsUp(states[n])
    ensures forall k :: 0 <= k < n ==> !OpensGap(states[k], events[k])
  {
    if n == 0 {
    } else {
      OrderlyRunKeepsUp(states, events, n - 1);
      assert states[n - 1 + 1] == Next(states[n - 1], events[n - 1]);
      assert events[..n][..n - 1] == events[..n - 1];
      OrderlyStep(states[n - 1], events[n - 1], Skipped(events[..n - 1]));
    }
  }

  /** If the leader finalizes in increasing index order, and the follower applies
      nothing past an entry it failed to apply, every error-free round converges. */
  lemma EveryRoundConverges(states: seq<Pair>, events: seq<Event>)
    requires Run(states, events) && NoneSkipped(events)
    requires forall k :: 0 <= k < |events| ==> InOrder(states[k], events[k])
    ensures var s := states[|events|];
            WellFormed(s.leader) && WellFormed(s.follower) && Converges(s.leader, s.follower)
  {
    OrderlyRunKeepsUp(states, events, |events|);
    ConvergesIffNoGapOpened(states, events);
  }

  // ---------------------------------------------------------------- one undisturbed round

  ghost predicate CopiesOf(leader: Ledger, e: LogEntry) {
    FinalStatus(leader, e.paymentID).Some? && e == EntryOf(leader.rows[e.paymentID])
  }

  lemma {:induction false} AttemptsKeepMirrors(leader: Ledger, follower: Ledger, w: seq<Attempt>)
    requires WellFormed(leader) && WellFormed(follower) && Mirrors(leader, follower)
    requires forall k :: 0 <= k < |w| ==> CopiesOf(leader, w[k].entry)
    ensures WellFormed(AfterAttempts(follower, w)) && Mirrors(leader, AfterAttempts(follower, w))
  {
    if w == [] {
    } else {
      var init, a := w[..|w| - 1], w[|w| - 1];
      AttemptsKeepMirrors(leader, follower, init);
      assert RowWellFormed(leader, a.entry.paymentID);
      TurnKeepsMirrors(leader, AfterAttempts(follower, init), leader.rows[a.entry.paymentID], a.insertDb, a.finalDb);
    }
  }

  /** Every entry at or below one that was soundly tried was soundly tried too. */
  ghost predicate TriedFromBelow(es: seq<LogEntry>, w: seq<Attempt>) {
    forall d, e :: d in es && e in es && d.logIndex <= e.logIndex ==> (SoundlyTried(w, e) ==> SoundlyTried(w, d))
  }

  /** A round with any failures, repetitions or interruption, from a follower
      without a gap, leaves none exactly when it tried no entry soundly above one
      that it did not. */
  lemma RoundLeavesNoGapIff(leader: Ledger, follower: Ledger, w: seq<Attempt>)
    requires WellFormed(leader) && WellFormed(follower)
    requires Mirrors(leader, follower) && NoGap(leader, follower) && DrawnFrom(w, Answer(leader, follower))
    ensures WellFormed(AfterAttempts(follower, w))
    ensures NoGap(leader, AfterAttempts(follower, w)) <==> TriedFromBelow(Answer(leader, follower), w)
  {
    var es, after := Answer(leader, follower), AfterAttempts(follower, w);
    forall e | e in es
      ensures CopiesOf(leader, e) && Head(follower) < e.logIndex
      ensures FinalStatus(after, e.paymentID) == if SoundlyTried(w, e) then FinalStatus(leader, e.paymentID) else None
    {
      var r := AnswerMember(leader, follower, e);
      AttemptsSetFinals(leader, follower, w, e.paymentID);
    }
    AttemptsKeepMirrors(leader, follower, w);
    if NoGap(leader, after) {
      forall d, e | d in es && e in es && d.logIndex <= e.logIndex && SoundlyTried(w, e)
        ensures SoundlyTried(w, d)
      {
        assert FinalStatus(after, e.paymentID).Some?;
      }
    } else {
      RoundLeavesGap(leader, follower, w);
    }
  }

  lemma RoundLeavesGap(leader: Ledger, follower: Ledger, w: seq<Attempt>)
    requires WellFormed(leader) && WellFormed(follower) && WellFormed(AfterAttempts(follower, w))
    requires Mirrors(leader, follower) && NoGap(leader, follower) && DrawnFrom(w, Answer(leader, follower))
    requires Mirrors(leader, AfterAttempts(follower, w)) && !NoGap(leader, AfterAttempts(follower, w))
    ensures !TriedFromBelow(Answer(leader, follower), w)
  {
    var after := AfterAttempts(follower, w);
    var p :| FinalStatus(leader, p).Some? && leader.rows[p].logIndex <= Head(after)
             && FinalStatus(after, p) != FinalStatus(leader, p);
    AttemptsSetFinals(leader, follower, w, p);
    AnswerHas(leader, follower, p);
    var q :| q in after.rows && Terminal(after.rows[q].status) && after.rows[q].logIndex == Head(after);
    assert Has(after, q);
    AttemptsSetFinals(leader, follower, w, q);
    AnswerHas(leader, follower, q);
  }

  // ---------------------------------------------------------------- gaps

  /** A payment the leader finalizes at or below the follower's head is not sent,
      in this round or, the head never going back, in any later one. */
  lemma GapsStay(leader: Ledger, follower: Ledger, w: seq<Attempt>, p: PaymentId)
    requires WellFormed(leader) && WellFormed(follower) && DrawnFrom(w, Answer(leader, follower))
    requires FinalStatus(leader, p).Some? && leader.rows[p].logIndex <= Head(follower)
    ensures View(AfterAttempts(follower, w), p) == View(follower, p)
    ensures WellFormed(AfterAttempts(follower, w))
    ensures leader.rows[p].logIndex <= Head(AfterAttempts(follower, w))
  {
    AttemptsExtend(follower, w);
    AnswerIsDistinct(leader, follower);
    AttemptsReachGoals(follower, Answer(leader, follower), w);
    forall e | e in Answer(leader, follower)
      ensures e.paymentID != p
    {
      var r := AnswerMember(leader, follower, e);
    }
    var after := AfterAttempts(follower, w);
    if Head(follower) != 0 {
      var q :| q in follower.rows && Terminal(follower.rows[q].status) && follower.rows[q].logIndex == Head(follower);
      assert RowExtends(follower, after, q);
    }
  }

  /** Two payments on the leader, the first below the second. */
  ghost predicate TwoPayments(d: LogEntry, e: LogEntry) {
    && ValidEntry(d) && d.status.Pending? && ValidEntry(e) && e.status.Pending?
    && d.paymentID != e.paymentID && d.logIndex < e.logIndex
  }

  function TwoRows(d: LogEntry, e: LogEntry): Ledger {
    Insert(Insert(EMPTY, d), e)
  }

  lemma ExtendRun(states: seq<Pair>, events: seq<Event>, ev: Event, next: Pair)
    returns (longer: seq<Pair>, more: seq<Event>)
    requires Run(states, events) && WellFormed(states[|events|].leader) && WellFormed(states[|events|].follower)
    requires Enabled(states[|events|], ev) && next == Next(states[|events|], ev)
    ensures longer == states + [next] && more == events + [ev] && Run(longer, more)
  {
    longer, more := states + [next], events + [ev];
    forall k | 0 <= k < |more|
      ensures WellFormed(longer[k].leader) && WellFormed(longer[k].follower)
      ensures Enabled(longer[k], more[k]) && longer[k + 1] == Next(longer[k], more[k])
    {
      if k < |events| {
        assert longer[k] == states[k] && more[k] == events[k] && longer[k + 1] == states[k + 1];
      }
    }
  }

  lemma OneFinalListed(l: Ledger, h: int, r: Payment)
    requires WellFormed(l) && Listed(l, h, r)
    requires forall p :: FinalStatus(l, p).Some? ==> p == r.paymentID
    ensures Listing(l, h) == [r]
  {
    assert forall s :: Listed(l, h, s) ==> FinalStatus(l, s.paymentID).Some?;
    ListingIsUnique(l, h, [r]);
  }

  lemma TwoRowsAreWellFormed(d: LogEntry, e: LogEntry)
    requires TwoPayments(d, e)
    ensures WellFormed(Insert(EMPTY, d)) && WellFormed(TwoRows(d, e))
    ensures StatusIs(TwoRows(d, e), d.paymentID, Pending) && TwoRows(d, e).rows[d.paymentID].logIndex == d.logIndex
    ensures StatusIs(TwoRows(d, e), e.paymentID, Pending) && TwoRows(d, e).rows[e.paymentID].logIndex == e.logIndex
    ensures forall p :: FinalStatus(TwoRows(d, e), p).None?
  {
    InsertExtends(EMPTY, d);
    InsertExtends(Insert(EMPTY, d), e);
  }

  /** The leader of two payments commits the later one, and only that. */
  lemma LaterCommitted(d: LogEntry, e: LogEntry) returns (states: seq<Pair>, events: seq<Event>, l: Ledger)
    requires TwoPayments(d, e)
    ensures events == [LeaderAppends(d), LeaderAppends(e), LeaderFinalizes(e.paymentID, Committed)]
    ensures Run(states, events) && states[3] == Pair(l, EMPTY, []) && WellFormed(l)
    ensures l == Update(TwoRows(d, e), e.paymentID, Committed)
  {
    TwoRowsAreWellFormed(d, e);
    l := Update(TwoRows(d, e), e.paymentID, Committed);
    UpdateExtends(TwoRows(d, e), e.paymentID, Committed);
    states, events := [START], [];
    states, events := ExtendRun(states, events, LeaderAppends(d), Pair(Insert(EMPTY, d), EMPTY, []));
    states, events := ExtendRun(states, events, LeaderAppends(e), Pair(TwoRows(d, e), EMPTY, []));
    states, events := ExtendRun(states, events, LeaderFinalizes(e.paymentID, Committed), Pair(l, EMPTY, []));
  }

  lemma LaterIsFinal(d: LogEntry, e: LogEntry, l: Ledger)
    requires TwoPayments(d, e) && l == Update(TwoRows(d, e), e.paymentID, Committed) && WellFormed(l)
    ensures Has(l, e.paymentID) && Listed(l, 0, l.rows[e.paymentID]) && l.rows[e.paymentID].paymentID == e.paymentID
    ensures l.rows[e.paymentID].logIndex == e.logIndex
    ensures forall p :: FinalStatus(l, p).Some? ==> p == e.paymentID
    ensures StatusIs(l, d.paymentID, Pending) && l.rows[d.paymentID].logIndex == d.logIndex
  {
    TwoRowsAreWellFormed(d, e);
  }

  lemma CopiesOneRow(l: Ledger, r: Payment)
    requires WellFormed(l) && Listed(l, 0, r)
    ensures var after := ApplyEntry(EMPTY, EntryOf(r), HEALTHY, HEALTHY).0;
            && WellFormed(after) && r.logIndex <= Head(after)
            && forall p :: Has(after, p) ==> p == r.paymentID
  {
    assert RowWellFormed(l, r.paymentID);
    ApplyEntryExtends(EMPTY, EntryOf(r), HEALTHY, HEALTHY);
    TurnStatements(EMPTY, EntryOf(r), HEALTHY, HEALTHY);
  }

  /** A follower without rows catches up on the one payment that is final. */
  lemma CatchesUpOnOne(states: seq<Pair>, events: seq<Event>, l: Ledger, r: Payment)
    returns (longer: seq<Pair>, more: seq<Event>, after: Ledger)
    requires Run(states, events) && states[|events|] == Pair(l, EMPTY, [])
    requires WellFormed(l) && Listed(l, 0, r) && forall p :: FinalStatus(l, p).Some? ==> p == r.paymentID
    ensures Run(longer, more) && more == events + [Ask, Try(HEALTHY, HEALTHY)] && longer[|more|] == Pair(l, after, [])
    ensures WellFormed(after) && r.logIndex <= Head(after) && forall p :: Has(after, p) ==> p == r.paymentID
  {
    OneFinalListed(l, 0, r);
    assert Head(EMPTY) == 0;
    CopiesOneRow(l, r);
    after := ApplyEntry(EMPTY, EntryOf(r), HEALTHY, HEALTHY).0;
    longer, more := ExtendRun(states, events, Ask, Pair(l, EMPTY, [r]));
    longer, more := ExtendRun(longer, more, Try(HEALTHY, HEALTHY), Pair(l, after, []));
  }

  lemma EarlierIsLost(l: Ledger, follower: Ledger, p: PaymentId)
    requires WellFormed(l) && WellFormed(follower)
    requires StatusIs(l, p, Pending) && l.rows[p].logIndex <= Head(follower) && !Has(follower, p)
    ensures var leader := Update(l, p, Committed);
            && WellFormed(leader) && FinalStatus(leader, p) == Some(Committed)
            && !NoGap(leader, follower) && View(Pull(leader, follower), p) == None
  {
    var leader := Update(l, p, Committed);
    UpdateExtends(l, p, Committed);
    PullTriesAll(leader, follower, p);
    GapsStay(leader, follower, SoundAttempts(Answer(leader, follower)), p);
  }

  lemma CommitsLate(states: seq<Pair>, events: seq<Event>, l: Ledger, follower: Ledger, p: PaymentId)
    returns (longer: seq<Pair>, more: seq<Event>)
    requires Run(states, events) && states[|events|] == Pair(l, follower, [])
    requires WellFormed(l) && WellFormed(follower) && StatusIs(l, p, Pending) && IndexIsFree(l, p)
    requires l.rows[p].logIndex <= Head(follower) && !Has(follower, p)
    ensures Run(longer, more) && more == events + [LeaderFinalizes(p, Committed)]
    ensures longer[|more|] == Pair(Update(l, p, Committed), follower, [])
    ensures var leader := Update(l, p, Committed);
            && WellFormed(leader) && FinalStatus(leader, p) == Some(Committed)
            && !NoGap(leader, follower) && View(Pull(leader, follower), p) == None
  {
    EarlierIsLost(l, follower, p);
    var next := Pair(Update(l, p, Committed), follower, []);
    longer, more := ExtendRun(states, events, LeaderFinalizes(p, Committed), next);
  }

  /** The gap is real: if the leader commits the later of two payments first, the
      follower catches up, and the leader then commits the earlier one, the
      follower never hears of it, although no database call failed. */
  lemma LateCommitIsLost(d: LogEntry, e: LogEntry) returns (states: seq<Pair>, events: seq<Event>)
    requires TwoPayments(d, e)
    ensures Run(states, events) && forall k :: 0 <= k < |events| && events[k].Try? ==> Applies(events[k])
    ensures var s := states[|events|];
            && FinalStatus(s.leader, d.paymentID) == Some(Committed)
            && WellFormed(s.leader) && WellFormed(s.follower) && !NoGap(s.leader, s.follower)
            && View(Pull(s.leader, s.follower), d.paymentID) == None
  {
    var l, follower;
    states, events, l := LaterCommitted(d, e);
    LaterIsFinal(d, e, l);
    states, events, follower := CatchesUpOnOne(states, events, l, l.rows[e.paymentID]);
    states, events := CommitsLate(states, events, l, follower, d.paymentID);
  }
}
