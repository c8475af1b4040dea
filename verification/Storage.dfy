/** The SQLite ledger (internal/storage/sqlite.go): one table keyed by payment
    id, appended to by a guarded INSERT and finalized by a guarded UPDATE. */
module Storage {
  import opened Replication

  datatype Payment = Payment(
    id: nat,
    paymentID: PaymentId,
    logIndex: int,
    amount: real,
    currency: string,
    status: Status,
    physicalTime: int,
    logicalTime: int,
    receivedBy: string,
    processedBy: string)

  /** The table: its rows by payment id, and the AUTOINCREMENT counter. */
  datatype Ledger = Ledger(rows: map<PaymentId, Payment>, lastID: nat)

  const EMPTY := Ledger(map[], 0)

  datatype Error =
    | InvalidEntry
    | NotPending
    | Duplicate
    | NotFound
    | WrongStatus(current: Status)
    | DbFailure

  datatype Outcome = Ok | Err(error: Error)

  /** Which calls into the database succeed: the statement itself, reading the
      number of affected rows, and the query that may follow. A statement that
      fails leaves the table as it was. */
  datatype Db = Db(exec: bool, affected: bool, query: bool)

  const HEALTHY := Db(true, true, true)

  function NewRow(e: LogEntry, id: nat): Payment {
    Payment(id, e.paymentID, e.logIndex, e.amount, e.currency, e.status, e.physicalTime, e.logicalTime,
            if TrimSpace(e.receivedBy) == "" then e.leaderID else e.receivedBy, e.leaderID)
  }

  /** The INSERT: the UNIQUE constraint on payment_id leaves a present row alone. */
  function Insert(l: Ledger, e: LogEntry): Ledger {
    if e.paymentID in l.rows then l
    else Ledger(l.rows[e.paymentID := NewRow(e, l.lastID + 1)], l.lastID + 1)
  }

  /** The UPDATE ... WHERE payment_id = ? AND status = PENDING. */
  function Update(l: Ledger, p: PaymentId, target: Status): Ledger {
    if p in l.rows && l.rows[p].status.Pending? then l.(rows := l.rows[p := l.rows[p].(status := target)])
    else l
  }

  predicate Has(l: Ledger, p: PaymentId) {
    p in l.rows
  }

  predicate StatusIs(l: Ledger, p: PaymentId, st: Status) {
    p in l.rows && l.rows[p].status == st
  }

  function Append(l: Ledger, e: LogEntry, db: Db): (Ledger, Outcome) {
    if !ValidEntry(e) then (l, Err(InvalidEntry))
    else if !e.status.Pending? then (l, Err(NotPending))
    else if !db.exec then (l, Err(DbFailure))
    else if Has(l, e.paymentID) then (l, Err(Duplicate))
    else (Insert(l, e), Ok)
  }

  function Finalize(l: Ledger, p: PaymentId, target: Status, db: Db): (Ledger, Outcome) {
    if !db.exec then (l, Err(DbFailure))
    else
      var l' := Update(l, p, target);
      if !db.affected then (l', Err(DbFailure))
      else if l' != l then (l', Ok)
      else if !db.query then (l', Err(DbFailure))
      else if !Has(l', p) then (l', Err(NotFound))
      else if l'.rows[p].status == target then (l', Ok)
      else (l', Err(WrongStatus(l'.rows[p].status)))
  }

  /** What every table reached through the operations satisfies. */
  ghost predicate WellFormed(l: Ledger) {
    && (forall p :: p in l.rows ==> RowWellFormed(l, p))
    && (forall p, q :: p in l.rows && q in l.rows && l.rows[p].id == l.rows[q].id ==> p == q)
  }

  ghost predicate RowWellFormed(l: Ledger, p: PaymentId)
    requires p in l.rows
  {
    var r := l.rows[p];
    && r.paymentID == p && p != ""
    && 1 <= r.id <= l.lastID
    && 0 <= r.logIndex && 0.0 <= r.amount
    && r.currency != "" && r.processedBy != ""
    && IsValid(r.status)
  }

  /** `b` is `a` some operations later: no row is lost, no payload changes, and
      a terminal status is final. */
  ghost predicate Extends(a: Ledger, b: Ledger) {
    forall p :: p in a.rows ==> RowExtends(a, b, p)
  }

  ghost predicate RowExtends(a: Ledger, b: Ledger, p: PaymentId)
    requires p in a.rows
  {
    && p in b.rows
    && b.rows[p] == a.rows[p].(status := b.rows[p].status)
    && (Terminal(a.rows[p].status) ==> b.rows[p].status == a.rows[p].status)
  }

  /** `p`'s row holds what `creation` carried, with `final` as its status. */
  ghost predicate RowFrom(l: Ledger, p: PaymentId, creation: LogEntry, final: Status) {
    && Has(l, p)
    && var r := l.rows[p];
       && r.paymentID == creation.paymentID && r.logIndex == creation.logIndex
       && r.amount == creation.amount && r.currency == creation.currency
       && r.physicalTime == creation.physicalTime && r.logicalTime == creation.logicalTime
       && r.processedBy == creation.leaderID
       && r.receivedBy == (if AllSpaces(creation.receivedBy) then creation.leaderID else creation.receivedBy)
       && r.status == final
  }

  /** internal/storage/sqlite.go: SQLiteStore. */
  class SQLiteStore {
    var rows: map<PaymentId, Payment>
    var lastID: nat

    function Contents(): Ledger
      reads this
    {
      Ledger(rows, lastID)
    }

    constructor ()
      ensures Contents() == EMPTY
    {
      rows, lastID := map[], 0;
    }

    method AppendPending(e: LogEntry, db: Db) returns (out: Outcome)
      modifies this
      ensures (Contents(), out) == Append(old(Contents()), e, db)
      ensures out.Ok? <==> ValidEntry(e) && e.status.Pending? && db.exec && e.paymentID !in old(rows)
      ensures out == Err(InvalidEntry) <==>
              || e.logIndex < 0 || e.term < 0 || e.leaderID == "" || e.paymentID == "" || e.amount < 0.0
              || e.currency == "" || e.status !in {Pending, Committed, Failed, Canceled}
      ensures out == Err(Duplicate) <==> ValidEntry(e) && e.status.Pending? && db.exec && e.paymentID in old(rows)
      ensures out.Ok? ==> RowFrom(Contents(), e.paymentID, e, Pending)
      ensures out.Ok? ==> forall p :: p in rows && p != e.paymentID <==> p in old(rows)
      ensures out.Ok? ==> forall p :: p in old(rows) ==> rows[p] == old(rows)[p]
      ensures !out.Ok? ==> Contents() == old(Contents())
    {
      if !ValidEntry(e) {
        return Err(InvalidEntry);
      }
      if !e.status.Pending? {
        return Err(NotPending);
      }
      if !db.exec {
        return Err(DbFailure);
      }
      if e.paymentID in rows {
        return Err(Duplicate);
      }
      ghost var left, right := TrimSpaceCuts(e.receivedBy);
      rows, lastID := rows[e.paymentID := NewRow(e, lastID + 1)], lastID + 1;
      return Ok;
    }

    /** The body shared, statement by statement, by the three finalizers. */
    method SetStatus(p: PaymentId, target: Status, db: Db) returns (out: Outcome)
      requires Terminal(target)
      modifies `rows
      ensures (Contents(), out) == Finalize(old(Contents()), p, target, db)
      ensures var pending := StatusIs(old(Contents()), p, Pending);
              && rows == (if db.exec && pending then old(rows)[p := old(rows)[p].(status := target)] else old(rows))
              && (out.Ok? <==> db.exec && db.affected && (pending || (db.query && StatusIs(Contents(), p, target))))
              && (out == Err(NotFound) <==> db.exec && db.affected && db.query && p !in rows)
      ensures out.Ok? ==> StatusIs(Contents(), p, target)
      ensures db == HEALTHY ==> (out.Ok? <==> StatusIs(Contents(), p, target))
    {
      if !db.exec {
        return Err(DbFailure);
      }
      var rowsAffected := 0;
      if p in rows && rows[p].status.Pending? {
        ghost var before := rows;
        rows := rows[p := rows[p].(status := target)];
        assert rows[p] != before[p];
        rowsAffected := 1;
      }
      if !db.affected {
        return Err(DbFailure);
      }
      if rowsAffected > 0 {
        return Ok;
      }
      if !db.query {
        return Err(DbFailure);
      }
      if p !in rows {
        return Err(NotFound);
      }
      if rows[p].status == target {
        return Ok;
      }
      return Err(WrongStatus(rows[p].status));
    }

    method CommitByPaymentID(p: PaymentId, db: Db) returns (out: Outcome)
      modifies `rows
      ensures (Contents(), out) == Finalize(old(Contents()), p, Committed, db)
      ensures out.Ok? ==> StatusIs(Contents(), p, Committed)
    {
      out := SetStatus(p, Committed, db);
    }

    method FailByPaymentID(p: PaymentId, db: Db) returns (out: Outcome)
      modifies `rows
      ensures (Contents(), out) == Finalize(old(Contents()), p, Failed, db)
      ensures out.Ok? ==> StatusIs(Contents(), p, Failed)
    {
      out := SetStatus(p, Failed, db);
    }

    method CancelByPaymentID(p: PaymentId, db: Db) returns (out: Outcome)
      modifies `rows
      ensures (Contents(), out) == Finalize(old(Contents()), p, Canceled, db)
      ensures out.Ok? ==> StatusIs(Contents(), p, Canceled)
    {
      out := SetStatus(p, Canceled, db);
    }

    method ExistsByPaymentID(p: PaymentId) returns (exists_: bool)
      ensures exists_ <==> Has(Contents(), p)
    {
      return p in rows;
    }

    /** The query's ORDER BY is modelled by taking the least row left. */
    method ListFinalizedAfter(logIndex: int) returns (items: seq<Payment>)
      requires WellFormed(Contents())
      ensures IsListing(Contents(), logIndex, items)
      ensures forall i, j :: 0 <= i < j < |items| ==>
                items[i].logIndex < items[j].logIndex
                || (items[i].logIndex == items[j].logIndex && items[i].id < items[j].id)
      ensures forall p :: p in rows ==>
                (rows[p] in items <==> Terminal(rows[p].status) && logIndex < rows[p].logIndex)
    {
      var finalized := set p | p in rows && Terminal(rows[p].status) && logIndex < rows[p].logIndex :: rows[p];
      ListedRows(Contents(), logIndex, finalized);
      items := OrderRows(finalized);
    }
  }

  /** Appending the least row left until none is. */
  method OrderRows(rows: set<Payment>) returns (items: seq<Payment>)
    requires DistinctIds(rows)
    ensures forall i, j :: 0 <= i < j < |items| ==> Before(items[i], items[j])
    ensures forall r :: r in items <==> r in rows
  {
    var remaining := rows;
    items := [];
    while remaining != {}
      invariant remaining <= rows
      invariant forall r :: r in items || r in remaining <==> r in rows
      invariant forall i, j :: 0 <= i < j < |items| ==> Before(items[i], items[j])
      invariant forall i, r :: 0 <= i < |items| && r in remaining ==> Before(items[i], r)
      decreases |remaining|
    {
      ghost var least := LeastExists(remaining);
      var row :| row in remaining && forall r :: r in remaining ==> r == row || Before(row, r);
      items := items + [row];
      remaining := remaining - {row};
    }
  }

  // ---------------------------------------------------------------- listings

  /** ORDER BY log_index ASC, id ASC */
  predicate Before(a: Payment, b: Payment) {
    a.logIndex < b.logIndex || (a.logIndex == b.logIndex && a.id < b.id)
  }

  predicate Listed(l: Ledger, logIndex: int, r: Payment) {
    && r.paymentID in l.rows && l.rows[r.paymentID] == r
    && Terminal(r.status)
    && logIndex < r.logIndex
  }

  /** What ListFinalizedAfter returns. */
  ghost predicate IsListing(l: Ledger, logIndex: int, items: seq<Payment>) {
    && (forall i, j :: 0 <= i < j < |items| ==> Before(items[i], items[j]))
    && (forall r :: r in items <==> Listed(l, logIndex, r))
  }

  ghost predicate IsLeast(rows: set<Payment>, row: Payment) {
    row in rows && forall r :: r in rows ==> r == row || Before(row, r)
  }

  ghost predicate DistinctIds(rows: set<Payment>) {
    forall r, s :: r in rows && s in rows && r.id == s.id ==> r == s
  }

  lemma ListedRows(l: Ledger, logIndex: int, rows: set<Payment>)
    requires WellFormed(l)
    requires rows == set p | p in l.rows && Terminal(l.rows[p].status) && logIndex < l.rows[p].logIndex :: l.rows[p]
    ensures forall r :: r in rows <==> Listed(l, logIndex, r)
    ensures DistinctIds(rows)
  {
  }

  lemma {:induction false} LeastExists(rows: set<Payment>) returns (least: Payment)
    requires DistinctIds(rows) && rows != {}
    ensures IsLeast(rows, least)
  {
    var x :| x in rows;
    least := x;
    var rest := rows - {x};
    assert forall r :: r in rows ==> r == x || r in rest;
    if rest == {} {
    } else {
      var m := LeastExists(rest);
      assert x in rows && m in rows && x != m;
      if !Before(x, m) {
        least := m;
      }
    }
  }

  lemma {:induction false} SortingExists(rows: set<Payment>)
    returns (items: seq<Payment>)
    requires DistinctIds(rows)
    ensures forall i, j :: 0 <= i < j < |items| ==> Before(items[i], items[j])
    ensures forall r :: r in items <==> r in rows
  {
    if rows == {} {
      items := [];
    } else {
      var least := LeastExists(rows);
      var rest := SortingExists(rows - {least});
      items := [least] + rest;
    }
  }

  /** The listing of a well-formed table: it exists, and there is only one. */
  ghost function Listing(l: Ledger, logIndex: int): (items: seq<Payment>)
    requires WellFormed(l)
    ensures IsListing(l, logIndex, items)
  {
    assert exists items :: IsListing(l, logIndex, items) by {
      var rows := set p | p in l.rows && Terminal(l.rows[p].status) && logIndex < l.rows[p].logIndex :: l.rows[p];
      ListedRows(l, logIndex, rows);
      var items := SortingExists(rows);
      assert IsListing(l, logIndex, items);
    }
    var items :| IsListing(l, logIndex, items);
    items
  }

  lemma ListingHolds(l: Ledger, logIndex: int, p: PaymentId)
    requires WellFormed(l) && Has(l, p)
    ensures l.rows[p] in Listing(l, logIndex) <==> Terminal(l.rows[p].status) && logIndex < l.rows[p].logIndex
  {
  }

  lemma {:induction false} SortedIsUnique(a: seq<Payment>, b: seq<Payment>)
    requires forall i, j :: 0 <= i < j < |a| ==> Before(a[i], a[j])
    requires forall i, j :: 0 <= i < j < |b| ==> Before(b[i], b[j])
    requires forall r :: r in a <==> r in b
    ensures a == b
  {
    if a == [] {
      assert forall i :: 0 <= i < |b| ==> b[i] in b;
    } else {
      assert a[0] in a && a[0] in b;
      assert b[0] in b && b[0] in a;
      assert a[0] == b[0];
      forall r
        ensures r in a[1..] <==> r in b[1..]
      {
        assert r in a[1..] ==> r != a[0] && r in a;
        assert r in b[1..] ==> r != b[0] && r in b;
      }
      SortedIsUnique(a[1..], b[1..]);
      assert a == [a[0]] + a[1..];
    }
  }

  lemma ListingIsUnique(l: Ledger, logIndex: int, items: seq<Payment>)
    requires WellFormed(l) && IsListing(l, logIndex, items)
    ensures items == Listing(l, logIndex)
  {
    SortedIsUnique(items, Listing(l, logIndex));
  }

  // ---------------------------------------------------------------- rows only grow

  lemma InsertExtends(l: Ledger, e: LogEntry)
    requires WellFormed(l)
    requires ValidEntry(e)
    ensures WellFormed(Insert(l, e)) && Extends(l, Insert(l, e)) && Has(Insert(l, e), e.paymentID)
  {
  }

  lemma UpdateExtends(l: Ledger, p: PaymentId, target: Status)
    requires Terminal(target)
    ensures Extends(l, Update(l, p, target))
    ensures WellFormed(l) ==> WellFormed(Update(l, p, target))
    ensures Has(l, p) ==> !StatusIs(Update(l, p, target), p, Pending)
  {
  }

  lemma ExtendsTransitive(a: Ledger, b: Ledger, c: Ledger)
    requires Extends(a, b) && Extends(b, c)
    ensures Extends(a, c)
  {
  }

  lemma AppendExtends(l: Ledger, e: LogEntry, db: Db)
    requires WellFormed(l)
    ensures var l' := Append(l, e, db).0; WellFormed(l') && Extends(l, l')
  {
    if ValidEntry(e) {
      InsertExtends(l, e);
    }
  }

  lemma FinalizeExtends(l: Ledger, p: PaymentId, target: Status, db: Db)
    requires WellFormed(l) && Terminal(target)
    ensures var l' := Finalize(l, p, target, db).0; WellFormed(l') && Extends(l, l')
  {
    UpdateExtends(l, p, target);
  }

  /** A finalizer is two statements, and other calls may run between them. Its
      report is nevertheless exact: with `before` the table its UPDATE met and
      `later` the table its query reads, it succeeds iff `later` has its status. */
  lemma ReportIsExactUnderInterleaving(before: Ledger, p: PaymentId, target: Status, later: Ledger)
    requires Terminal(target)
    requires Extends(Update(before, p, target), later)
    ensures Update(before, p, target) != before || StatusIs(later, p, target) <==> StatusIs(later, p, target)
  {
  }

  // ---------------------------------------------------------------- the first finalizer wins

  datatype Op = AppendOp(entry: LogEntry) | FinalOp(pid: PaymentId, target: Status)

  predicate ValidOp(op: Op) {
    op.FinalOp? ==> Terminal(op.target)
  }

  function Perform(l: Ledger, op: Op): (Ledger, Outcome) {
    match op
    case AppendOp(e) => Append(l, e, HEALTHY)
    case FinalOp(p, target) => Finalize(l, p, target, HEALTHY)
  }

  /** The table after the operations `ops`, in order, on an empty one. */
  function AfterOps(ops: seq<Op>): Ledger {
    if ops == [] then EMPTY else Perform(AfterOps(ops[..|ops| - 1]), ops[|ops| - 1]).0
  }

  predicate Creates(op: Op, p: PaymentId) {
    op.AppendOp? && op.entry.paymentID == p && ValidEntry(op.entry) && op.entry.status.Pending?
  }

  predicate Finalizes(op: Op, p: PaymentId) {
    op.FinalOp? && op.pid == p
  }

  /** `i` is the first operation that can create `p`'s row, and `j` the first
      finalizing call for `p` after it; either is |ops| when there is none. */
  ghost predicate FirstCalls(ops: seq<Op>, p: PaymentId, i: nat, j: nat) {
    && i <= |ops| && j <= |ops|
    && (forall k :: 0 <= k < i ==> !Creates(ops[k], p))
    && (i < |ops| ==> Creates(ops[i], p) && i < j)
    && (forall k :: i < k < j ==> !Finalizes(ops[k], p))
    && (j < |ops| ==> i < |ops| && Finalizes(ops[j], p))
  }

  lemma OneMoreOp(l: Ledger, op: Op, p: PaymentId)
    requires ValidOp(op)
    ensures var l' := Perform(l, op).0;
            && (!Has(l, p) && !Creates(op, p) ==> !Has(l', p))
            && (!Has(l, p) && Creates(op, p) ==> RowFrom(l', p, op.entry, Pending))
            && (forall e, final :: RowFrom(l, p, e, final) ==>
                  RowFrom(l', p, e, if final.Pending? && Finalizes(op, p) then op.target else final))
  {
    if op.AppendOp? {
      var left, right := TrimSpaceCuts(op.entry.receivedBy);
    }
  }

  lemma FirstCallsBefore(ops: seq<Op>, p: PaymentId, i: nat, j: nat) returns (i': nat, j': nat)
    requires ops != [] && FirstCalls(ops, p, i, j)
    ensures var n := |ops| - 1;
            && FirstCalls(ops[..n], p, i', j')
            && i' == (if i < n then i else n) && j' == if j < n then j else n
  {
    var n := |ops| - 1;
    i', j' := if i < n then i else n, if j < n then j else n;
  }

  /** The row that the two first calls determine, ids apart. */
  lemma {:induction false} FirstFinalizerWins(ops: seq<Op>, p: PaymentId, i: nat, j: nat)
    requires forall k :: 0 <= k < |ops| ==> ValidOp(ops[k])
    requires FirstCalls(ops, p, i, j)
    ensures Has(AfterOps(ops), p) <==> i < |ops|
    ensures i < |ops| ==>
              RowFrom(AfterOps(ops), p, ops[i].entry, if j < |ops| then ops[j].target else Pending)
  {
    if ops == [] {
    } else {
      var n := |ops| - 1;
      var init := ops[..n];
      var i', j' := FirstCallsBefore(ops, p, i, j);
      FirstFinalizerWins(init, p, i', j');
      OneMoreOp(AfterOps(init), ops[n], p);
    }
  }

  /** A finalizer on a healthy database reports success exactly when the
      table it leaves has its status, whatever came before. */
  lemma FinalizerReportsTheOutcome(ops: seq<Op>)
    requires ops != [] && ops[|ops| - 1].FinalOp?
    requires ValidOp(ops[|ops| - 1])
    ensures var op := ops[|ops| - 1];
            Perform(AfterOps(ops[..|ops| - 1]), op).1.Ok? <==> StatusIs(AfterOps(ops), op.pid, op.target)
  {
  }
}
