/** The follower's append handler (internal/api/handlers.go: internalAppendHandler). */
module FollowerHandlers {
  import opened Replication
  import opened Storage
  import opened Counters
  import Lamport

  /** An entry of the request, whether it passes the wall-clock checks when its
      turn comes, and which database calls then work. */
  datatype Incoming = Incoming(entry: LogEntry, onTime: bool, db: Db)

  datatype Response = Response(success: bool, lastLogIndex: int)

  predicate Acceptable(m: Incoming) {
    && m.entry.paymentID != ""
    && 0 <= m.entry.logIndex
    && 0 <= m.entry.logicalTime
    && 0 < m.entry.physicalTime
    && m.onTime
  }

  /** The handler after a prefix of the request: `stopped` once it has answered
      with a failure, after which nothing changes. */
  datatype Progress = Progress(ledger: Ledger, clock: nat, lastLogIndex: int, stopped: bool)

  function Handle(p: Progress, m: Incoming): Progress {
    if p.stopped then p
    else if !Acceptable(m) then p.(stopped := true, lastLogIndex := 0)
    else
      var clock := Lamport.Inc(Lamport.Max(p.clock, m.entry.logicalTime));
      var (l, out) := Append(p.ledger, m.entry.(logicalTime := Wrap64(clock)), m.db);
      if out.Err? && !out.error.Duplicate? then Progress(l, clock, p.lastLogIndex, true)
      else Progress(l, clock, m.entry.logIndex, false)
  }

  function Handled(start: Progress, request: seq<Incoming>): Progress {
    if request == [] then start else Handle(Handled(start, request[..|request| - 1]), request[|request| - 1])
  }

  lemma {:induction false} StoppedStays(start: Progress, request: seq<Incoming>, k: nat)
    requires k <= |request| && Handled(start, request[..k]).stopped
    ensures Handled(start, request) == Handled(start, request[..k])
    decreases |request|
  {
    if k == |request| {
      assert request[..k] == request;
    } else {
      var init := request[..|request| - 1];
      assert init[..k] == request[..k];
      StoppedStays(start, init, k);
    }
  }

  lemma OneMore(start: Progress, request: seq<Incoming>, k: nat)
    requires k < |request|
    ensures var next := Handle(Handled(start, request[..k]), request[k]);
            Handled(start, request[..k + 1]) == next && (next.stopped ==> Handled(start, request) == next)
  {
    assert request[..k + 1][..k] == request[..k];
    if Handled(start, request[..k + 1]).stopped {
      StoppedStays(start, request, k + 1);
    }
  }

  // ---------------------------------------------------------------- when a request succeeds

  /** What the source asks of an entry: its own checks, the wall-clock checks, and
      then an append that works or finds the payment there. */
  predicate Passes(m: Incoming) {
    && m.onTime && m.db.exec
    && m.entry.paymentID != "" && m.entry.logIndex >= 0 && m.entry.logicalTime >= 0 && m.entry.physicalTime > 0
    && ValidEntry(m.entry) && m.entry.status.Pending?
  }

  ghost predicate AllPass(request: seq<Incoming>) {
    forall m :: m in request ==> Passes(m)
  }

  /** The entry gets as far as the clock. */
  predicate Reaches(m: Incoming) {
    && m.onTime
    && m.entry.paymentID != "" && m.entry.logIndex >= 0 && m.entry.logicalTime >= 0 && m.entry.physicalTime > 0
  }

  /** Whether an entry passes does not depend on the follower: a payment that is
      already there is acknowledged all the same. */
  lemma HandleOutcome(p: Progress, m: Incoming)
    requires !p.stopped
    ensures var q := Handle(p, m);
            && (!q.stopped <==> Passes(m))
            && (Passes(m) ==> q.lastLogIndex == m.entry.logIndex && Has(q.ledger, m.entry.paymentID))
            && (!Passes(m) ==> q.ledger == p.ledger && q.lastLogIndex == if Reaches(m) then p.lastLogIndex else 0)
            && (Has(p.ledger, m.entry.paymentID) ==> q.ledger == p.ledger)
            && (!Reaches(m) ==> q.clock == p.clock)
  {
  }

  /** The receive rule: above both clocks, and just above the greater. */
  lemma HandleReceives(p: Progress, m: Incoming)
    requires !p.stopped && Reaches(m) && p.clock < TWO_TO_THE_64 - 1 && m.entry.logicalTime < TWO_TO_THE_64 - 1
    ensures var q := Handle(p, m);
            && p.clock < q.clock && m.entry.logicalTime < q.clock
            && (q.clock == p.clock + 1 || q.clock == m.entry.logicalTime + 1)
  {
  }

  /** A new row carries what the entry carried, and the time it was received at. */
  lemma HandleStores(p: Progress, m: Incoming)
    requires !p.stopped && Passes(m) && !Has(p.ledger, m.entry.paymentID)
    ensures var q := Handle(p, m);
            && RowFrom(q.ledger, m.entry.paymentID, m.entry.(logicalTime := Wrap64(q.clock)), Pending)
            && (q.clock < TWO_TO_THE_63 ==> q.ledger.rows[m.entry.paymentID].logicalTime == q.clock)
  {
    var left, right := TrimSpaceCuts(m.entry.receivedBy);
  }

  /** A request succeeds exactly when every entry passes, and then reports the
      last entry's index. Otherwise it stops at the first entry that does not, and
      what came before stays. */
  lemma {:induction false} RequestOutcome(start: Progress, request: seq<Incoming>)
    requires !start.stopped
    ensures !Handled(start, request).stopped <==> AllPass(request)
    ensures request != [] && AllPass(request) ==>
              Handled(start, request).lastLogIndex == request[|request| - 1].entry.logIndex
  {
    if request == [] {
    } else {
      var n := |request| - 1;
      RequestOutcome(start, request[..n]);
      assert request == request[..n] + [request[n]];
      if !Handled(start, request[..n]).stopped {
        HandleOutcome(Handled(start, request[..n]), request[n]);
      }
    }
  }

  lemma RequestStopsAt(start: Progress, request: seq<Incoming>, k: nat)
    requires !start.stopped && start.lastLogIndex == 0 && k < |request| && !Passes(request[k])
    requires forall i :: 0 <= i < k ==> Passes(request[i])
    ensures var end, before := Handled(start, request), Handled(start, request[..k]);
            && end.stopped && end.ledger == before.ledger
            && end.lastLogIndex == if k == 0 || !Reaches(request[k]) then 0 else request[k - 1].entry.logIndex
  {
    RequestOutcome(start, request[..k]);
    OneMore(start, request, k);
    HandleOutcome(Handled(start, request[..k]), request[k]);
  }

  class Follower {
    const ledger: SQLiteStore
    const clock: Lamport.LamportClock

    constructor (ledger: SQLiteStore, clock: Lamport.LamportClock)
      ensures this.ledger == ledger && this.clock == clock
    {
      this.ledger, this.clock := ledger, clock;
    }

    function Contents(lastLogIndex: int, stopped: bool): Progress
      reads ledger, clock
    {
      Progress(ledger.Contents(), clock.time, lastLogIndex, stopped)
    }

    method InternalAppend(request: seq<Incoming>) returns (r: Response)
      modifies ledger, clock
      ensures r.success <==> request != [] && !Handled(old(Contents(0, false)), request).stopped
      ensures request != [] ==> Contents(r.lastLogIndex, !r.success) == Handled(old(Contents(0, false)), request)
      ensures request == [] ==> Contents(0, false) == old(Contents(0, false))
      ensures r.success <==> request != [] && AllPass(request)
      ensures r.success ==> r.lastLogIndex == request[|request| - 1].entry.logIndex
    {
      if request == [] {
        return Response(false, 0);
      }
      ghost var start := Contents(0, false);
      RequestOutcome(start, request);
      var lastIndex := 0;
      var k := 0;
      while k < |request|
        invariant 0 <= k <= |request|
        invariant Contents(lastIndex, false) == Handled(start, request[..k])
      {
        OneMore(start, request, k);
        var m := request[k];
        if !Acceptable(m) {
          return Response(false, 0);
        }
        var t := clock.Receive(m.entry.logicalTime);
        var appended := ledger.AppendPending(m.entry.(logicalTime := Wrap64(t)), m.db);
        if appended.Err? && !appended.error.Duplicate? {
          return Response(false, lastIndex);
        }
        lastIndex := m.entry.logIndex;
        k := k + 1;
      }
      assert request[..k] == request;
      return Response(true, lastIndex);
    }
  }

  ghost predicate Named(request: seq<Incoming>, id: PaymentId) {
    exists k :: 0 <= k < |request| && request[k].entry.paymentID == id
  }

  /** Success or not, no row that was there is lost or changed. */
  lemma {:induction false} RequestExtends(start: Progress, request: seq<Incoming>)
    requires WellFormed(start.ledger)
    ensures var p := Handled(start, request); WellFormed(p.ledger) && Extends(start.ledger, p.ledger)
  {
    if request == [] {
    } else {
      var before := Handled(start, request[..|request| - 1]);
      RequestExtends(start, request[..|request| - 1]);
      HandleExtends(before, request[|request| - 1]);
      ExtendsTransitive(start.ledger, before.ledger, Handled(start, request).ledger);
    }
  }

  lemma HandleKeeps(p: Progress, m: Incoming, id: PaymentId)
    ensures Has(p.ledger, id) ==> Has(Handle(p, m).ledger, id)
    ensures !Handle(p, m).stopped ==> !p.stopped && Has(Handle(p, m).ledger, m.entry.paymentID)
    ensures Has(Handle(p, m).ledger, id) ==> Has(p.ledger, id) || id == m.entry.paymentID
  {
  }

  /** A success means that every entry's payment now has a row. */
  lemma {:induction false} SuccessMeansPresent(start: Progress, request: seq<Incoming>, k: nat)
    requires k < |request| && !Handled(start, request).stopped
    ensures Has(Handled(start, request).ledger, request[k].entry.paymentID)
    decreases |request|
  {
    var n := |request| - 1;
    HandleKeeps(Handled(start, request[..n]), request[n], request[k].entry.paymentID);
    if k == n {
    } else {
      SuccessMeansPresent(start, request[..n], k);
    }
  }

  /** And no row appears that the request does not name. */
  lemma {:induction false} OnlyNamedRowsAppear(start: Progress, request: seq<Incoming>, id: PaymentId)
    requires Has(Handled(start, request).ledger, id)
    ensures Has(start.ledger, id) || Named(request, id)
  {
    if request == [] {
    } else {
      var n := |request| - 1;
      var init := request[..n];
      HandleKeeps(Handled(start, init), request[n], id);
      if Has(Handled(start, init).ledger, id) {
        OnlyNamedRowsAppear(start, init, id);
        if Named(init, id) {
          var k :| 0 <= k < |init| && init[k].entry.paymentID == id;
          assert request[k].entry.paymentID == id;
        }
      } else {
        assert request[n].entry.paymentID == id;
      }
    }
  }

  lemma HandleExtends(p: Progress, m: Incoming)
    requires WellFormed(p.ledger)
    ensures var q := Handle(p, m);
            WellFormed(q.ledger) && Extends(p.ledger, q.ledger)
  {
    var clock := Lamport.Inc(Lamport.Max(p.clock, if m.entry.logicalTime < 0 then 0 else m.entry.logicalTime));
    AppendExtends(p.ledger, m.entry.(logicalTime := Wrap64(clock)), m.db);
  }
}
