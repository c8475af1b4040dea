/** Catch-up of a follower that also hears its leader's messages
    (cmd/quorapay-node/main.go, internal/api/handlers.go). */
module LiveCatchUp {
  import opened Wrappers
  import opened Replication
  import opened Storage
  import opened Counters
  import opened Cluster
  import opened ClusterInvariants
  import opened Runs
  import opened CatchUp
  import Agreement
  import Limits
  import Refinement

  /** Under one leader, whatever messages were lost, delayed or reordered, the next
      error-free round brings a node's finals to the leader's if and only if the
      node has no gap: it never knows more than its leader. */
  lemma LiveFollowerConvergesIff(steps: seq<Step>, leader: Node, n: Node)
    requires Exec(steps).Some? && forall k :: 0 <= k < |steps| ==> Agreement.ByLeader(leader, steps[k])
    ensures var a, b := LedgerOf(Exec(steps).value, leader), LedgerOf(Exec(steps).value, n);
            && WellFormed(a) && WellFormed(b)
            && (Converges(a, b) <==> NoGap(a, b))
  {
    var s := Exec(steps).value;
    var a, b := LedgerOf(s, leader), LedgerOf(s, n);
    RunKeepsInv(steps);
    forall p | FinalStatus(b, p).Some?
      ensures FinalStatus(a, p) == FinalStatus(b, p)
    {
      assert HasRow(s, n, p);
      Agreement.SingleLeaderAgreement(steps, leader, n, p);
    }
    OneRoundConverges(a, b);
  }

  // ---------------------------------------------------------------- a round is a run

  lemma LedgersAreWellFormed(steps: seq<Step>, n: Node)
    requires Exec(steps).Some?
    ensures WellFormed(LedgerOf(Exec(steps).value, n))
  {
    RunKeepsInv(steps);
  }

  lemma Serves(s: State, leader: Node, p: PaymentId) returns (t: State)
    requires Enabled(s, ServeCatchUp(leader, p))
    ensures Follows(s, ServeCatchUp(leader, p), t)
    ensures t == s.(net := s.net + {CatchUpRow(leader, LedgerOf(s, leader).rows[p])})
  {
    t := s.(net := s.net + {CatchUpRow(leader, LedgerOf(s, leader).rows[p])});
  }

  /** The leader serves one of its rows and the follower's loop takes its turn at it. */
  lemma TurnIsARun(before: seq<Step>, s: State, leader: Node, n: Node, p: PaymentId)
    returns (steps: seq<Step>, t: State)
    requires Exec(before) == Some(s) && Enabled(s, ServeCatchUp(leader, p))
    ensures Exec(before + steps) == Some(t) && t.calls == s.calls && t.head == s.head
    ensures LedgerOf(t, n) == ApplyEntry(LedgerOf(s, n), EntryOf(LedgerOf(s, leader).rows[p]), HEALTHY, HEALTHY).0
    ensures forall o :: o != n ==> LedgerOf(t, o) == LedgerOf(s, o)
  {
    var served := Serves(s, leader, p);
    var first := Extend(before, s, ServeCatchUp(leader, p), served);
    var m := CatchUpRow(leader, LedgerOf(s, leader).rows[p]);
    var turn;
    turn, t := Refinement.LoopTurnIsCatchUp(first, served, n, m, HEALTHY, HEALTHY);
    steps := [ServeCatchUp(leader, p)] + turn;
    assert before + steps == first + turn;
  }

  /** The rows are finalized rows of the ledger. */
  ghost predicate Finalized(l: Ledger, items: seq<Payment>) {
    forall i :: 0 <= i < |items| ==> FinalRow(l, items[i])
  }

  ghost predicate FinalRow(l: Ledger, r: Payment) {
    Has(l, r.paymentID) && l.rows[r.paymentID] == r && Terminal(r.status)
  }

  lemma ListingIsFinalized(l: Ledger, h: int)
    requires WellFormed(l)
    ensures Finalized(l, Listing(l, h))
  {
    forall i | 0 <= i < |Listing(l, h)|
      ensures FinalRow(l, Listing(l, h)[i])
    {
      assert Listing(l, h)[i] in Listing(l, h);
    }
  }

  /** The ledger after error-free turns at the first `k` rows. */
  function Applied(l: Ledger, items: seq<Payment>, k: nat): Ledger
    requires k <= |items|
  {
    AfterAttempts(l, SoundAttempts(Entries(items))[..k])
  }

  lemma AppliedOneMore(l: Ledger, items: seq<Payment>, k: nat)
    requires 0 < k <= |items|
    ensures Applied(l, items, k) == ApplyEntry(Applied(l, items, k - 1), EntryOf(items[k - 1]), HEALTHY, HEALTHY).0
  {
    var w := SoundAttempts(Entries(items))[..k];
    assert w[..|w| - 1] == SoundAttempts(Entries(items))[..k - 1];
  }

  /** Only `n`'s ledger and the net have changed. */
  ghost predicate Fed(s: State, t: State, n: Node) {
    t.calls == s.calls && t.head == s.head && forall o :: o != n ==> LedgerOf(t, o) == LedgerOf(s, o)
  }

  lemma OneMoreTurn(before: seq<Step>, s: State, most: seq<Step>, v: State, leader: Node, n: Node, r: Payment)
    returns (steps: seq<Step>, t: State)
    requires Exec(before + most) == Some(v) && Fed(s, v, n) && leader != n && FinalRow(LedgerOf(s, leader), r)
    ensures Exec(before + steps) == Some(t) && Fed(s, t, n)
    ensures LedgerOf(t, n) == ApplyEntry(LedgerOf(v, n), EntryOf(r), HEALTHY, HEALTHY).0
  {
    assert LedgerOf(v, leader) == LedgerOf(s, leader);
    var turn;
    turn, t := TurnIsARun(before + most, v, leader, n, r.paymentID);
    steps := most + turn;
    assert before + steps == (before + most) + turn;
  }

  lemma {:induction false} TurnsAreARun(before: seq<Step>, s: State, leader: Node, n: Node, items: seq<Payment>, k: nat)
    returns (steps: seq<Step>, t: State)
    requires Exec(before) == Some(s) && leader != n && Finalized(LedgerOf(s, leader), items) && k <= |items|
    ensures Exec(before + steps) == Some(t) && Fed(s, t, n)
    ensures LedgerOf(t, n) == Applied(LedgerOf(s, n), items, k)
  {
    if k == 0 {
      steps, t := [], s;
      assert before + [] == before;
    } else {
      var most, v := TurnsAreARun(before, s, leader, n, items, k - 1);
      AppliedOneMore(LedgerOf(s, n), items, k);
      assert FinalRow(LedgerOf(s, leader), items[k - 1]);
      steps, t := OneMoreTurn(before, s, most, v, leader, n, items[k - 1]);
    }
  }

  /** From any state of a run, an error-free catch-up round of one node from another
      is a continuation of the run that leaves exactly what a round leaves, and
      touches no other ledger and no call. */
  lemma RoundIsARun(before: seq<Step>, s: State, leader: Node, n: Node) returns (steps: seq<Step>, t: State)
    requires Exec(before) == Some(s) && leader != n
    ensures WellFormed(LedgerOf(s, leader)) && WellFormed(LedgerOf(s, n))
    ensures Exec(before + steps) == Some(t) && t.calls == s.calls && t.head == s.head
    ensures LedgerOf(t, n) == Pull(LedgerOf(s, leader), LedgerOf(s, n))
    ensures forall o :: o != n ==> LedgerOf(t, o) == LedgerOf(s, o)
  {
    LedgersAreWellFormed(before, leader);
    LedgersAreWellFormed(before, n);
    var items := Listing(LedgerOf(s, leader), Head(LedgerOf(s, n)));
    ListingIsFinalized(LedgerOf(s, leader), Head(LedgerOf(s, n)));
    steps, t := TurnsAreARun(before, s, leader, n, items, |items|);
    var w := SoundAttempts(Entries(items));
    assert w[..|items|] == w;
  }

  // ---------------------------------------------------------------- how a gap opens

  /** The ledgers differ in `p`'s row alone, which `b` has with this status and index. */
  ghost predicate Gains(a: Ledger, b: Ledger, p: PaymentId, status: Status, index: int) {
    && StatusIs(b, p, status) && b.rows[p].logIndex == index
    && forall q :: q != p ==> (Has(b, q) <==> Has(a, q)) && (Has(a, q) ==> b.rows[q] == a.rows[q])
  }

  /** What a success leaves on the caller and on the acknowledging follower. */
  lemma SuccessGains(s: State, c: nat, f: Node, g: Node)
    requires Limits.CanSucceed(s, c, f)
    requires !HasRow(s, s.calls[c].node, s.calls[c].entry.paymentID) && !HasRow(s, f, s.calls[c].entry.paymentID)
    ensures var t, n, e := Limits.Succeeded(s, c, f, g), s.calls[c].node, s.calls[c].entry;
            && Gains(LedgerOf(s, n), LedgerOf(t, n), e.paymentID, Target(s.calls[c].kind), e.logIndex)
            && Gains(LedgerOf(s, f), LedgerOf(t, f), e.paymentID, Pending, e.logIndex)
  {
  }

  /** A's call succeeded, and none of its followers has been told. */
  predicate Announces(call: Call, kind: Kind, p: PaymentId) {
    && call.node == "A" && call.kind == kind && call.entry.paymentID == p
    && call.followers == ["B", "C"] && call.phase == Announcing(0)
  }

  /** A call on A takes the next index. */
  lemma TakesIndex(before: seq<Step>, s: State, c: nat, kind: Kind, e: LogEntry) returns (steps: seq<Step>, t: State)
    requires Exec(before) == Some(s) && Enabled(s, Start(c, kind, "A", e)) && !HasRow(s, "A", e.paymentID)
    requires 0 <= s.head.value < TWO_TO_THE_63 - 1
    ensures Exec(steps) == Some(t) && Limits.CanSucceed(t, c, "B")
    ensures t.ledgers == s.ledgers && t.head.value == s.head.value + 1 && t.calls == s.calls[c := t.calls[c]]
    ensures t.calls[c].kind == kind && t.calls[c].node == "A"
    ensures t.calls[c].entry == e.(logIndex := s.head.value + 1)
  {
    var started := With(s, c, NewCall(kind, "A", e));
    steps := Limits.Begin(before, s, c, kind, "A", e);
    steps := Limits.AssignIndex(steps, started, c);
    t := Limits.Assigned(started, c);
  }

  lemma Finishes(before: seq<Step>, s: State, c: nat) returns (steps: seq<Step>, t: State)
    requires Exec(before) == Some(s) && Limits.CanSucceed(s, c, "B") && s.calls[c].node == "A"
    requires !HasRow(s, "A", s.calls[c].entry.paymentID) && !HasRow(s, "B", s.calls[c].entry.paymentID)
    ensures Exec(steps) == Some(t) && t.head == s.head
    ensures var call, p := s.calls[c], s.calls[c].entry.paymentID;
            && Gains(LedgerOf(s, "A"), LedgerOf(t, "A"), p, Target(call.kind), call.entry.logIndex)
            && Gains(LedgerOf(s, "B"), LedgerOf(t, "B"), p, Pending, call.entry.logIndex)
            && c in t.calls && t.calls == s.calls[c := t.calls[c]] && Announces(t.calls[c], call.kind, p)
  {
    steps := Limits.Succeed(before, s, c, "B", "C");
    Limits.SuccessFacts(s, c, "B", "C");
    SuccessGains(s, c, "B", "C");
    t := Limits.Succeeded(s, c, "B", "C");
  }

  /** A successful call on A, undisturbed, that B acknowledges and C does not. */
  lemma Succeeds(before: seq<Step>, s: State, c: nat, kind: Kind, e: LogEntry) returns (steps: seq<Step>, t: State)
    requires Exec(before) == Some(s) && Enabled(s, Start(c, kind, "A", e)) && 0 <= s.head.value < TWO_TO_THE_63 - 1
    requires !HasRow(s, "A", e.paymentID) && !HasRow(s, "B", e.paymentID)
    ensures Exec(steps) == Some(t) && t.head.value == s.head.value + 1
    ensures Gains(LedgerOf(s, "A"), LedgerOf(t, "A"), e.paymentID, Target(kind), s.head.value + 1)
    ensures Gains(LedgerOf(s, "B"), LedgerOf(t, "B"), e.paymentID, Pending, s.head.value + 1)
    ensures c in t.calls && t.calls == s.calls[c := t.calls[c]] && Announces(t.calls[c], kind, e.paymentID)
  {
    var indexed;
    steps, indexed := TakesIndex(before, s, c, kind, e);
    steps, t := Finishes(steps, indexed, c);
  }

  /** B is told of call `c`'s success. */
  lemma Tell(before: seq<Step>, s: State, c: nat, kind: Kind, p: PaymentId) returns (steps: seq<Step>, t: State)
    requires Exec(before) == Some(s) && c in s.calls && Announces(s.calls[c], kind, p)
    ensures Exec(steps) == Some(t) && t.calls == s.calls && LedgerOf(t, "A") == LedgerOf(s, "A")
    ensures LedgerOf(t, "B") == Update(LedgerOf(s, "B"), p, Target(kind))
  {
    var s1 := Apply(s, SendFinalize(c));
    assert s1.calls == s.calls && s1.ledgers == s.ledgers && FinalizeRequest(c, 0) in s1.net;
    steps := Extend(before, s, SendFinalize(c), s1);
    t := Apply(s1, FollowerUpdate(c, 0));
    steps := Extend(steps, s1, FollowerUpdate(c, 0), t);
  }

  lemma GapOpens(a: Ledger, b: Ledger, p: PaymentId, q: PaymentId)
    requires WellFormed(a) && WellFormed(b) && StatusIs(a, p, Canceled) && StatusIs(b, p, Pending)
    requires StatusIs(b, q, Committed) && a.rows[p].logIndex <= b.rows[q].logIndex
    ensures !NoGap(a, b) && !Converges(a, b)
  {
    assert FinalStatus(a, p) == Some(Canceled) && FinalStatus(b, p) == None;
    assert q in b.rows && b.rows[q].logIndex <= Head(b);
    OneRoundConverges(a, b);
  }

  lemma TwoCalls(d: LogEntry, e: LogEntry) returns (steps: seq<Step>, s: State)
    requires ValidEntry(d) && d.status.Pending? && d.logIndex == 0
    requires ValidEntry(e) && e.status.Pending? && e.logIndex == 0 && d.paymentID != e.paymentID
    ensures Exec(steps) == Some(s) && s.calls.Keys == {0, 1} && s.calls[0].node == "A"
    ensures Announces(s.calls[1], Pay, e.paymentID)
    ensures RowIs(s, "A", d.paymentID, Canceled) && LedgerOf(s, "A").rows[d.paymentID].logIndex == 1
    ensures RowIs(s, "B", d.paymentID, Pending)
    ensures RowIs(s, "B", e.paymentID, Pending) && LedgerOf(s, "B").rows[e.paymentID].logIndex == 2
  {
    var s1;
    assert Exec([]) == Some(INIT);
    steps, s1 := Succeeds([], INIT, 0, Cancel, d);
    steps, s := Succeeds(steps, s1, 1, Pay, e);
  }

  lemma Tells(l: Ledger, p: PaymentId, q: PaymentId)
    requires p != q && StatusIs(l, p, Pending) && StatusIs(l, q, Pending)
    ensures var l' := Update(l, q, Committed);
            StatusIs(l', p, Pending) && StatusIs(l', q, Committed) && l'.rows[q].logIndex == l.rows[q].logIndex
  {
  }

  /** The usual way a gap opens, with one leader and no failed database call: the
      message that finalizes one payment is lost, the one for a later payment is
      delivered, and catch-up, which starts above the later one, never repairs it. */
  lemma LostMessageOpensGap(p: PaymentId, q: PaymentId) returns (steps: seq<Step>, s: State)
    requires p != q && p != "" && q != ""
    ensures Exec(steps) == Some(s) && forall c :: c in s.calls ==> s.calls[c].node == "A"
    ensures RowIs(s, "A", p, Canceled) && RowIs(s, "B", p, Pending)
    ensures var a, b := LedgerOf(s, "A"), LedgerOf(s, "B");
            WellFormed(a) && WellFormed(b) && !NoGap(a, b) && !Converges(a, b)
  {
    var s2;
    steps, s2 := TwoCalls(Limits.TEMPLATE.(paymentID := p), Limits.TEMPLATE.(paymentID := q));
    steps, s := Tell(steps, s2, 1, Pay, q);
    Tells(LedgerOf(s2, "B"), p, q);
    LedgersAreWellFormed(steps, "A");
    LedgersAreWellFormed(steps, "B");
    GapOpens(LedgerOf(s, "A"), LedgerOf(s, "B"), p, q);
  }
}
