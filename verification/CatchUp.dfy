/** Follower catch-up: the transfer format of internalCatchUpHandler
    (internal/api/handlers.go) and the apply loop of runFollowerCatchUpLoop
    (cmd/quorapay-node/main.go). */
module CatchUp {
  import opened Wrappers
  import opened Replication
  import opened Storage

  /** A finalized row as the leader sends it. */
  function EntryOf(r: Payment): LogEntry {
    LogEntry(r.logIndex, 0, r.processedBy, r.receivedBy, r.paymentID, r.amount, r.currency,
             match r.status { case Failed => Failed case Canceled => Canceled case _ => Committed },
             r.physicalTime, r.logicalTime)
  }

  function Entries(items: seq<Payment>): (es: seq<LogEntry>)
    ensures |es| == |items|
  {
    seq(|items|, i requires 0 <= i < |items| => EntryOf(items[i]))
  }

  /** A finalized row survives the transfer: inserting and finalizing what the
      leader sends for it gives the same row again. */
  lemma TransferKeepsRows(e: LogEntry, id: nat, target: Status)
    requires Terminal(target)
    ensures var row := NewRow(e, id).(status := target);
            NewRow(EntryOf(row).(status := Pending), id).(status := EntryOf(row).status) == row
  {
  }

  /** One turn of the apply loop, and whether it counts as applied. */
  function ApplyEntry(l: Ledger, e: LogEntry, insertDb: Db, finalDb: Db): (Ledger, bool) {
    var (l1, appended) := Append(l, e.(status := Pending), insertDb);
    if appended.Err? && !appended.error.Duplicate? then (l1, false)
    else if !Terminal(e.status) then (l1, false)
    else
      var (l2, finalized) := Finalize(l1, e.paymentID, e.status, finalDb);
      (l2, finalized.Ok? || finalized.error.NotFound?)
  }

  /** An entry handed to the loop, and which database calls work for it. */
  datatype Attempt = Attempt(entry: LogEntry, insertDb: Db, finalDb: Db)

  /** Both statements run. What fails after them fails too late to matter. */
  predicate Sound(a: Attempt) {
    a.insertDb.exec && a.finalDb.exec
  }

  function AfterAttempts(l: Ledger, w: seq<Attempt>): Ledger {
    if w == [] then l
    else
      var a := w[|w| - 1];
      ApplyEntry(AfterAttempts(l, w[..|w| - 1]), a.entry, a.insertDb, a.finalDb).0
  }

  function AppliedCount(l: Ledger, w: seq<Attempt>): nat {
    if w == [] then 0
    else
      var a := w[|w| - 1];
      AppliedCount(l, w[..|w| - 1])
      + if ApplyEntry(AfterAttempts(l, w[..|w| - 1]), a.entry, a.insertDb, a.finalDb).1 then 1 else 0
  }

  /** The apply loop. */
  method ApplyEntries(store: SQLiteStore, w: seq<Attempt>) returns (applied: nat)
    modifies store
    ensures store.Contents() == AfterAttempts(old(store.Contents()), w)
    ensures applied == AppliedCount(old(store.Contents()), w)
  {
    applied := 0;
    var k := 0;
    while k < |w|
      invariant 0 <= k <= |w|
      invariant store.Contents() == AfterAttempts(old(store.Contents()), w[..k])
      invariant applied == AppliedCount(old(store.Contents()), w[..k])
    {
      assert w[..k + 1][..k] == w[..k];
      var a := w[k];
      k := k + 1;
      var appended := store.AppendPending(a.entry.(status := Pending), a.insertDb);
      if appended.Err? && !appended.error.Duplicate? {
        continue;
      }
      var finalized: Outcome;
      match a.entry.status {
        case Committed => finalized := store.CommitByPaymentID(a.entry.paymentID, a.finalDb);
        case Failed => finalized := store.FailByPaymentID(a.entry.paymentID, a.finalDb);
        case Canceled => finalized := store.CancelByPaymentID(a.entry.paymentID, a.finalDb);
        case _ => continue;
      }
      if finalized.Err? && !finalized.error.NotFound? {
        continue;
      }
      applied := applied + 1;
    }
    assert w[..k] == w;
  }

  /** What a turn does to the ledger, statement by statement. */
  lemma TurnStatements(l: Ledger, e: LogEntry, insertDb: Db, finalDb: Db)
    ensures var pending := e.(status := Pending);
            ApplyEntry(l, e, insertDb, finalDb).0
            == if !ValidEntry(pending) || !insertDb.exec then l
               else if !Terminal(e.status) || !finalDb.exec then Insert(l, pending)
               else Update(Insert(l, pending), e.paymentID, e.status)
  {
  }

  /** And when it counts as applied: the calls that decide it worked, and the
      payment ends with the entry's status. */
  lemma TurnCounts(l: Ledger, e: LogEntry, insertDb: Db, finalDb: Db)
    ensures var (l', applied) := ApplyEntry(l, e, insertDb, finalDb);
            applied <==> && ValidEntry(e.(status := Pending)) && Terminal(e.status)
                         && insertDb.exec && finalDb.exec && finalDb.affected
                         && StatusIs(l', e.paymentID, e.status)
                         && (Has(l, e.paymentID) && !StatusIs(l, e.paymentID, Pending) ==> finalDb.query)
  {
  }

  lemma ApplyEntryExtends(l: Ledger, e: LogEntry, insertDb: Db, finalDb: Db)
    requires WellFormed(l)
    ensures var l' := ApplyEntry(l, e, insertDb, finalDb).0; WellFormed(l') && Extends(l, l')
  {
    var l1 := Append(l, e.(status := Pending), insertDb).0;
    AppendExtends(l, e.(status := Pending), insertDb);
    if Terminal(e.status) {
      FinalizeExtends(l1, e.paymentID, e.status, finalDb);
      ExtendsTransitive(l, l1, Finalize(l1, e.paymentID, e.status, finalDb).0);
    }
  }

  lemma {:induction false} AttemptsExtend(l: Ledger, w: seq<Attempt>)
    requires WellFormed(l)
    ensures WellFormed(AfterAttempts(l, w)) && Extends(l, AfterAttempts(l, w))
  {
    if w == [] {
    } else {
      var a := w[|w| - 1];
      var mid := AfterAttempts(l, w[..|w| - 1]);
      AttemptsExtend(l, w[..|w| - 1]);
      ApplyEntryExtends(mid, a.entry, a.insertDb, a.finalDb);
      ExtendsTransitive(l, mid, AfterAttempts(l, w));
    }
  }

  // ---------------------------------------------------------------- order, repetition and interruption

  /** A payment's row, row id apart. */
  function View(l: Ledger, p: PaymentId): Option<Payment> {
    if Has(l, p) then Some(l.rows[p].(id := 0)) else None
  }

  /** What one sound attempt makes of the entry's payment. */
  function Goal(l: Ledger, e: LogEntry): Option<Payment> {
    View(ApplyEntry(l, e, HEALTHY, HEALTHY).0, e.paymentID)
  }

  lemma GoalReadsOneRow(a: Ledger, b: Ledger, e: LogEntry)
    requires View(a, e.paymentID) == View(b, e.paymentID)
    ensures Goal(a, e) == Goal(b, e)
  {
    TurnStatements(a, e, HEALTHY, HEALTHY);
    TurnStatements(b, e, HEALTHY, HEALTHY);
  }

  lemma SoundAttemptIsHealthy(l: Ledger, a: Attempt)
    requires Sound(a)
    ensures ApplyEntry(l, a.entry, a.insertDb, a.finalDb).0 == ApplyEntry(l, a.entry, HEALTHY, HEALTHY).0
  {
    TurnStatements(l, a.entry, a.insertDb, a.finalDb);
    TurnStatements(l, a.entry, HEALTHY, HEALTHY);
  }

  lemma AttemptTouchesOnePayment(l: Ledger, a: Attempt)
    ensures forall p :: p != a.entry.paymentID ==>
                          View(ApplyEntry(l, a.entry, a.insertDb, a.finalDb).0, p) == View(l, p)
  {
    TurnStatements(l, a.entry, a.insertDb, a.finalDb);
  }

  /** The statements of a turn, run again, lead to the same goal. */
  lemma StatementsKeepGoal(l: Ledger, e: LogEntry)
    requires ValidEntry(e.(status := Pending))
    ensures var l1 := Insert(l, e.(status := Pending));
            && Goal(l1, e) == Goal(l, e)
            && (Terminal(e.status) ==> Goal(Update(l1, e.paymentID, e.status), e) == Goal(l, e))
            && (View(l, e.paymentID) == Goal(l, e) ==> View(l1, e.paymentID) == Goal(l, e))
  {
    var l1 := Insert(l, e.(status := Pending));
    TurnStatements(l, e, HEALTHY, HEALTHY);
    TurnStatements(l1, e, HEALTHY, HEALTHY);
    TurnStatements(Update(l1, e.paymentID, e.status), e, HEALTHY, HEALTHY);
  }

  /** One attempt, sound or not, moves its payment towards the goal or leaves
      it there, and touches no other payment. */
  lemma AttemptApproachesGoal(l: Ledger, a: Attempt)
    ensures var l' := ApplyEntry(l, a.entry, a.insertDb, a.finalDb).0;
            && (forall p :: p != a.entry.paymentID ==> View(l', p) == View(l, p))
            && Goal(l', a.entry) == Goal(l, a.entry)
            && (Sound(a) || View(l, a.entry.paymentID) == Goal(l, a.entry) ==>
                  View(l', a.entry.paymentID) == Goal(l, a.entry))
  {
    AttemptTouchesOnePayment(l, a);
    TurnStatements(l, a.entry, a.insertDb, a.finalDb);
    if ValidEntry(a.entry.(status := Pending)) {
      StatementsKeepGoal(l, a.entry);
    }
    if Sound(a) {
      SoundAttemptIsHealthy(l, a);
    }
  }

  ghost predicate DistinctPayments(es: seq<LogEntry>) {
    forall i, j :: 0 <= i < j < |es| ==> es[i].paymentID != es[j].paymentID
  }

  ghost predicate DrawnFrom(w: seq<Attempt>, es: seq<LogEntry>) {
    forall k :: 0 <= k < |w| ==> w[k].entry in es
  }

  ghost predicate SoundlyTried(w: seq<Attempt>, e: LogEntry) {
    exists k :: 0 <= k < |w| && w[k].entry == e && Sound(w[k])
  }

  lemma OneMoreAttempt(l: Ledger, mid: Ledger, a: Attempt, e: LogEntry)
    requires e.paymentID == a.entry.paymentID ==> e == a.entry
    requires Goal(mid, e) == Goal(l, e)
    ensures var end := ApplyEntry(mid, a.entry, a.insertDb, a.finalDb).0;
            && Goal(end, e) == Goal(l, e)
            && (View(mid, e.paymentID) == Goal(l, e) || (a.entry == e && Sound(a)) ==>
                  View(end, e.paymentID) == Goal(l, e))
  {
    AttemptApproachesGoal(mid, a);
    if e.paymentID != a.entry.paymentID {
      GoalReadsOneRow(mid, ApplyEntry(mid, a.entry, a.insertDb, a.finalDb).0, e);
    }
  }

  lemma TriedBeforeOrLast(w: seq<Attempt>, e: LogEntry)
    requires SoundlyTried(w, e)
    ensures w != []
    ensures SoundlyTried(w[..|w| - 1], e) || (w[|w| - 1].entry == e && Sound(w[|w| - 1]))
  {
  }

  /** A payment's row after any attempts at a response: its goal once an
      attempt at its entry was sound, and untouched if the response lacks it. */
  lemma {:induction false} AttemptsReachGoals(l: Ledger, es: seq<LogEntry>, w: seq<Attempt>)
    requires DistinctPayments(es) && DrawnFrom(w, es)
    ensures forall e :: e in es ==> Goal(AfterAttempts(l, w), e) == Goal(l, e)
    ensures forall e :: e in es && SoundlyTried(w, e) ==> View(AfterAttempts(l, w), e.paymentID) == Goal(l, e)
    ensures forall p :: (forall e :: e in es ==> e.paymentID != p) ==> View(AfterAttempts(l, w), p) == View(l, p)
  {
    if w == [] {
    } else {
      var init, a := w[..|w| - 1], w[|w| - 1];
      AttemptsReachGoals(l, es, init);
      var mid := AfterAttempts(l, init);
      forall e | e in es
        ensures Goal(AfterAttempts(l, w), e) == Goal(l, e)
        ensures SoundlyTried(w, e) ==> View(AfterAttempts(l, w), e.paymentID) == Goal(l, e)
      {
        OneMoreAttempt(l, mid, a, e);
        if SoundlyTried(w, e) {
          TriedBeforeOrLast(w, e);
        }
      }
      AttemptApproachesGoal(mid, a);
    }
  }

  /** Catch-up is idempotent, order-independent and safe to restart: any two
      sequences of attempts at a response, with repetitions, in any order, and
      with failed or half-done attempts among them, leave the same rows as soon
      as each holds one sound attempt at every entry. */
  lemma CatchUpIsConfluent(l: Ledger, es: seq<LogEntry>, w1: seq<Attempt>, w2: seq<Attempt>)
    requires DistinctPayments(es)
    requires DrawnFrom(w1, es) && forall e :: e in es ==> SoundlyTried(w1, e)
    requires DrawnFrom(w2, es) && forall e :: e in es ==> SoundlyTried(w2, e)
    ensures forall p :: View(AfterAttempts(l, w1), p) == View(AfterAttempts(l, w2), p)
  {
    AttemptsReachGoals(l, es, w1);
    AttemptsReachGoals(l, es, w2);
    forall p
      ensures View(AfterAttempts(l, w1), p) == View(AfterAttempts(l, w2), p)
    {
      if exists e :: e in es && e.paymentID == p {
        var e :| e in es && e.paymentID == p;
      }
    }
  }

  // ---------------------------------------------------------------- one round

  /** readLocalCommittedHead */
  method ReadLocalCommittedHead(store: SQLiteStore) returns (head: int)
    requires WellFormed(store.Contents())
    ensures head == Head(store.Contents())
  {
    var items := store.ListFinalizedAfter(0);
    ListingIsUnique(store.Contents(), 0, items);
    head := 0;
    var k := 0;
    while k < |items|
      invariant 0 <= k <= |items|
      invariant head == if k == 0 then 0 else items[k - 1].logIndex
    {
      assert Listed(store.Contents(), 0, items[k]);
      assert k > 0 ==> Before(items[k - 1], items[k]);
      if head < items[k].logIndex {
        head := items[k].logIndex;
      }
      k := k + 1;
    }
  }

  /** The greatest finalized index, zero if there is none above it. */
  ghost function Head(l: Ledger): (head: int)
    requires WellFormed(l)
    ensures 0 <= head
    ensures forall p :: p in l.rows && Terminal(l.rows[p].status) ==> l.rows[p].logIndex <= head
    ensures head == 0 || exists p :: p in l.rows && Terminal(l.rows[p].status) && l.rows[p].logIndex == head
  {
    var items := Listing(l, 0);
    if items == [] then
      assert forall p :: p in l.rows && Terminal(l.rows[p].status) ==> l.rows[p].logIndex <= 0 by {
        forall p | p in l.rows && Terminal(l.rows[p].status) ensures l.rows[p].logIndex <= 0 {
          ListingHolds(l, 0, p);
        }
      }
      0
    else
      var last := items[|items| - 1];
      assert last in items && Listed(l, 0, last);
      assert forall p :: p in l.rows && Terminal(l.rows[p].status) ==> l.rows[p].logIndex <= last.logIndex by {
        forall p | p in l.rows && Terminal(l.rows[p].status) ensures l.rows[p].logIndex <= last.logIndex {
          ListingHolds(l, 0, p);
          if 0 < l.rows[p].logIndex {
            var i :| 0 <= i < |items| && items[i] == l.rows[p];
          }
        }
      }
      last.logIndex
  }

  function SoundAttempts(es: seq<LogEntry>): (w: seq<Attempt>)
    ensures |w| == |es|
    ensures forall k :: 0 <= k < |w| ==> w[k] == Attempt(es[k], HEALTHY, HEALTHY)
  {
    seq(|es|, i requires 0 <= i < |es| => Attempt(es[i], HEALTHY, HEALTHY))
  }

  /** The leader's answer to this follower. */
  ghost function Answer(leader: Ledger, follower: Ledger): seq<LogEntry>
    requires WellFormed(leader) && WellFormed(follower)
  {
    Entries(Listing(leader, Head(follower)))
  }

  /** One error-free round. */
  ghost function Pull(leader: Ledger, follower: Ledger): Ledger
    requires WellFormed(leader) && WellFormed(follower)
  {
    AfterAttempts(follower, SoundAttempts(Answer(leader, follower)))
  }

  function FinalStatus(l: Ledger, p: PaymentId): Option<Status> {
    if Has(l, p) && Terminal(l.rows[p].status) then Some(l.rows[p].status) else None
  }

  /** The follower knows nothing final that its leader does not. */
  ghost predicate Faithful(leader: Ledger, follower: Ledger) {
    forall p :: FinalStatus(follower, p).Some? ==> FinalStatus(leader, p) == FinalStatus(follower, p)
  }

  /** The follower has whatever its leader finalized at or below the follower's head. */
  ghost predicate NoGap(leader: Ledger, follower: Ledger)
    requires WellFormed(follower)
  {
    forall p :: FinalStatus(leader, p).Some? && leader.rows[p].logIndex <= Head(follower) ==>
                  FinalStatus(follower, p) == FinalStatus(leader, p)
  }

  lemma AnswerMember(leader: Ledger, follower: Ledger, e: LogEntry) returns (r: Payment)
    requires WellFormed(leader) && WellFormed(follower) && e in Answer(leader, follower)
    ensures Listed(leader, Head(follower), r) && e == EntryOf(r)
    ensures ValidEntry(e.(status := Pending)) && FinalStatus(leader, e.paymentID) == Some(e.status)
    ensures e == EntryOf(leader.rows[e.paymentID]) && Head(follower) < leader.rows[e.paymentID].logIndex
  {
    var items := Listing(leader, Head(follower));
    var i :| 0 <= i < |items| && Entries(items)[i] == e;
    r := items[i];
    assert r in items;
    assert RowWellFormed(leader, r.paymentID);
  }

  lemma AnswerHas(leader: Ledger, follower: Ledger, p: PaymentId)
    requires WellFormed(leader) && WellFormed(follower)
    requires FinalStatus(leader, p).Some? && Head(follower) < leader.rows[p].logIndex
    ensures EntryOf(leader.rows[p]) in Answer(leader, follower)
  {
    var items := Listing(leader, Head(follower));
    ListingHolds(leader, Head(follower), p);
    var i :| 0 <= i < |items| && items[i] == leader.rows[p];
    assert Entries(items)[i] == EntryOf(leader.rows[p]);
  }

  lemma AnswerIsDistinct(leader: Ledger, follower: Ledger)
    requires WellFormed(leader) && WellFormed(follower)
    ensures DistinctPayments(Answer(leader, follower))
  {
    var items := Listing(leader, Head(follower));
    forall i, j | 0 <= i < j < |items|
      ensures items[i].paymentID != items[j].paymentID
    {
      assert items[i] in items && items[j] in items && Before(items[i], items[j]);
    }
  }

  lemma GoalOfValidEntry(l: Ledger, e: LogEntry)
    requires WellFormed(l) && ValidEntry(e.(status := Pending)) && Terminal(e.status)
    ensures var r := Goal(l, e);
            && r.Some?
            && r.value.status == (if FinalStatus(l, e.paymentID).Some? then l.rows[e.paymentID].status else e.status)
            && r.value.logIndex == (if Has(l, e.paymentID) then l.rows[e.paymentID].logIndex else e.logIndex)
  {
    TurnStatements(l, e, HEALTHY, HEALTHY);
  }

  lemma UnsoundKeepsFinal(l: Ledger, a: Attempt, p: PaymentId)
    requires a.entry.paymentID == p ==> !Sound(a)
    ensures FinalStatus(ApplyEntry(l, a.entry, a.insertDb, a.finalDb).0, p) == FinalStatus(l, p)
  {
    TurnStatements(l, a.entry, a.insertDb, a.finalDb);
  }

  lemma {:induction false} UntriedKeepsFinal(l: Ledger, w: seq<Attempt>, p: PaymentId)
    requires forall k :: 0 <= k < |w| && w[k].entry.paymentID == p ==> !Sound(w[k])
    ensures FinalStatus(AfterAttempts(l, w), p) == FinalStatus(l, p)
  {
    if w == [] {
    } else {
      UntriedKeepsFinal(l, w[..|w| - 1], p);
      UnsoundKeepsFinal(AfterAttempts(l, w[..|w| - 1]), w[|w| - 1], p);
    }
  }

  /** The finals after any attempts at the leader's answer, failed, repeated, in
      any order or cut off: exactly the payments soundly tried become final. */
  lemma AttemptsSetFinals(leader: Ledger, follower: Ledger, w: seq<Attempt>, p: PaymentId)
    requires WellFormed(leader) && WellFormed(follower) && DrawnFrom(w, Answer(leader, follower))
    ensures FinalStatus(AfterAttempts(follower, w), p) ==
            if FinalStatus(follower, p).Some? then FinalStatus(follower, p)
            else if FinalStatus(leader, p).Some? && SoundlyTried(w, EntryOf(leader.rows[p])) then FinalStatus(leader, p)
            else None
  {
    assert Has(leader, p) ==> RowWellFormed(leader, p);
    if exists k :: 0 <= k < |w| && w[k].entry.paymentID == p && Sound(w[k]) {
      var k :| 0 <= k < |w| && w[k].entry.paymentID == p && Sound(w[k]);
      var e := w[k].entry;
      var r := AnswerMember(leader, follower, e);
      AnswerIsDistinct(leader, follower);
      AttemptsReachGoals(follower, Answer(leader, follower), w);
      assert SoundlyTried(w, e);
      GoalOfValidEntry(follower, e);
    } else {
      UntriedKeepsFinal(follower, w, p);
    }
  }

  lemma PullTriesAll(leader: Ledger, follower: Ledger, p: PaymentId)
    requires WellFormed(leader) && WellFormed(follower) && FinalStatus(leader, p).Some?
    ensures DrawnFrom(SoundAttempts(Answer(leader, follower)), Answer(leader, follower))
    ensures SoundlyTried(SoundAttempts(Answer(leader, follower)), EntryOf(leader.rows[p]))
            <==> Head(follower) < leader.rows[p].logIndex
  {
    var es := Answer(leader, follower);
    var w := SoundAttempts(es);
    if Head(follower) < leader.rows[p].logIndex {
      AnswerHas(leader, follower, p);
      var i :| 0 <= i < |es| && es[i] == EntryOf(leader.rows[p]);
      assert w[i].entry == es[i];
    }
    if SoundlyTried(w, EntryOf(leader.rows[p])) {
      assert RowWellFormed(leader, p);
      var r := AnswerMember(leader, follower, EntryOf(leader.rows[p]));
    }
  }

  /** The finals after an error-free round, payment by payment. */
  lemma PullSetsFinals(leader: Ledger, follower: Ledger, p: PaymentId)
    requires WellFormed(leader) && WellFormed(follower)
    ensures FinalStatus(Pull(leader, follower), p) ==
            if FinalStatus(follower, p).Some? then FinalStatus(follower, p)
            else if FinalStatus(leader, p).Some? && Head(follower) < leader.rows[p].logIndex then FinalStatus(leader, p)
            else None
  {
    AttemptsSetFinals(leader, follower, SoundAttempts(Answer(leader, follower)), p);
    if FinalStatus(leader, p).Some? {
      PullTriesAll(leader, follower, p);
    }
  }

  /** An error-free round now would make the finalized maps equal. */
  ghost predicate Converges(leader: Ledger, follower: Ledger)
    requires WellFormed(leader) && WellFormed(follower)
  {
    forall p :: FinalStatus(Pull(leader, follower), p) == FinalStatus(leader, p)
  }

  /** Catch-up converges in one error-free round from an idle leader exactly
      when the follower knew nothing else final and had no gap below its head. */
  lemma OneRoundConverges(leader: Ledger, follower: Ledger)
    requires WellFormed(leader) && WellFormed(follower)
    ensures Converges(leader, follower) <==> Faithful(leader, follower) && NoGap(leader, follower)
  {
    forall p {
      PullSetsFinals(leader, follower, p);
    }
    if Converges(leader, follower) {
      forall p | FinalStatus(leader, p).Some? && leader.rows[p].logIndex <= Head(follower)
        ensures FinalStatus(follower, p) == FinalStatus(leader, p)
      {
        assert FinalStatus(Pull(leader, follower), p) == FinalStatus(leader, p);
      }
      forall p | FinalStatus(follower, p).Some?
        ensures FinalStatus(leader, p) == FinalStatus(follower, p)
      {
        assert FinalStatus(Pull(leader, follower), p) == FinalStatus(leader, p);
      }
    }
  }
}
