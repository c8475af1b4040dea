/** The invariants of the cluster, kept by every step. */
module ClusterInvariants {
  import opened Wrappers
  import opened Replication
  import opened Storage
  import opened Counters
  import opened Cluster
  import Quorum

  // ---------------------------------------------------------------- nothing is taken back

  ghost predicate CallGrows(a: Call, b: Call) {
    && b.kind == a.kind && b.node == a.node && b.entry.paymentID == a.entry.paymentID
    && (!Early(a.phase) ==> !Early(b.phase) && b.followers == a.followers)
    && a.heard <= b.heard && a.acks <= b.acks && a.finals <= b.finals
    && (a.indexed ==> b.indexed && b.entry == a.entry)
    && (a.phase.Done? ==> b == a)
  }

  ghost predicate Grows(s: State, t: State) {
    && (forall n :: Extends(LedgerOf(s, n), LedgerOf(t, n)))
    && (forall c :: c in s.calls ==> c in t.calls && CallGrows(s.calls[c], t.calls[c]))
    && (forall k :: k in s.issued ==> k in t.issued && t.issued[k] == s.issued[k])
    && Raised(s.head, t.head)
  }

  // ---------------------------------------------------------------- the invariants

  ghost predicate Shape(s: State) {
    && (forall n :: WellFormed(LedgerOf(s, n)))
    && (forall c :: c in s.calls ==> ValidEntry(s.calls[c].entry) && s.calls[c].entry.status.Pending?)
    && 0 <= s.head.value
    && (forall k :: k in s.issued <==> 1 <= k <= s.head.value)
  }

  /** What a call that read the head knows about it. */
  ghost predicate HeadKnown(head: Register, phase: Phase) {
    && (phase.HeadRead? ==> phase.next <= head.value + 1)
    && (phase.HeadGot? ==>
          && phase.next <= head.value + 1 && phase.version <= head.version
          && (phase.version == head.version ==> head.value < phase.next))
  }

  ghost predicate Indices(s: State) {
    && (forall c :: c in s.calls ==> HeadKnown(s.head, s.calls[c].phase))
    && (forall k :: k in s.issued ==>
          s.issued[k] in s.calls && s.calls[s.issued[k]].indexed && s.calls[s.issued[k]].entry.logIndex == k)
    && (forall c :: c in s.calls && s.calls[c].indexed ==>
          s.calls[c].entry.logIndex in s.issued && s.issued[s.calls[c].entry.logIndex] == c)
    && (forall c :: c in s.calls && !Early(s.calls[c].phase) && !s.calls[c].phase.Done? ==> s.calls[c].indexed)
    && (forall c :: c in s.calls && Early(s.calls[c].phase) ==> (s.calls[c].indexed <==> s.calls[c].phase.Indexed?))
  }

  /** The call's own row exists. */
  predicate PastAppend(phase: Phase) {
    phase.Collecting? || PastQuorum(phase)
  }

  predicate PastQuorum(phase: Phase) {
    phase.Quorate? || phase.Updated? || Successful(phase)
  }

  /** The replicator reported Committed. */
  predicate Successful(phase: Phase) {
    phase.Announcing? || phase == Done(OkReplicated)
  }

  ghost predicate Acknowledged(s: State, call: Call) {
    && call.acks <= call.heard
    && (forall i :: i in call.heard ==> i < |call.followers|)
    && (forall i :: i in call.finals ==> i < |call.followers|)
    && (forall i :: i in call.acks ==> HasRow(s, call.followers[i], call.entry.paymentID))
    && (forall i :: i in call.finals ==> RowIs(s, call.followers[i], call.entry.paymentID, Target(call.kind)))
    && (Early(call.phase) ==> call.followers == [] && call.heard == {} && call.finals == {})
  }

  ghost predicate Progress(s: State, call: Call) {
    && (PastAppend(call.phase) ==> HasRow(s, call.node, call.entry.paymentID) && call.indexed)
    && (PastQuorum(call.phase) ==> HasQuorum(call))
    && (Successful(call.phase) || call.phase == Done(OkRecorded) ==>
          RowIs(s, call.node, call.entry.paymentID, Target(call.kind)))
    && (call.phase.Announcing? ==> call.phase.told <= |call.followers|)
    && (call.phase.Failing? ==> call.kind.Pay?)
  }

  /** A pay call that got an index ends as replicated, as marked FAILED, or
      dead; and what it leaves when its local database calls all worked. */
  ghost predicate CleanPay(s: State, call: Call) {
    call.kind.Pay? ==>
      && (call.indexed && call.phase.Done? ==>
            call.phase.answer.OkReplicated? || call.phase.answer.MarkedFailed? || call.phase.answer.NoAnswer?)
      && (call.faulted || CleanRow(s, call))
  }

  ghost predicate CleanRow(s: State, call: Call) {
    && (call.phase.Appended? || call.phase.Failing? ==> HasRow(s, call.node, call.entry.paymentID))
    && (call.phase == Done(MarkedFailed) ==>
          && HasRow(s, call.node, call.entry.paymentID)
          && Terminal(LedgerOf(s, call.node).rows[call.entry.paymentID].status))
  }

  ghost predicate Good(s: State, call: Call) {
    Acknowledged(s, call) && Progress(s, call) && CleanPay(s, call)
  }

  ghost predicate Calls(s: State) {
    forall c :: c in s.calls ==> Good(s, s.calls[c])
  }

  ghost predicate Holds(s: State, m: Message) {
    match m
    case AppendRequest(c, i) => Addresses(s, c, i) && s.calls[c].indexed && !Early(s.calls[c].phase)
    case AppendAck(c, i) =>
      && Addresses(s, c, i) && s.calls[c].indexed && !Early(s.calls[c].phase)
      && HasRow(s, s.calls[c].followers[i], s.calls[c].entry.paymentID)
    case FinalizeRequest(c, i) =>
      && Addresses(s, c, i) && s.calls[c].indexed && !Early(s.calls[c].phase)
      && HasQuorum(s.calls[c]) && TargetHeld(s, c)
    case FinalizeAck(c, i) =>
      && Addresses(s, c, i) && !Early(s.calls[c].phase)
      && RowIs(s, s.calls[c].followers[i], s.calls[c].entry.paymentID, Target(s.calls[c].kind))
    case CatchUpRow(source, row) =>
      && Terminal(row.status) && RowIs(s, source, row.paymentID, row.status)
      && LedgerOf(s, source).rows[row.paymentID].logIndex == row.logIndex
  }

  ghost predicate Net(s: State) {
    forall m :: m in s.net ==> Holds(s, m)
  }

  /** A row's index was issued to a call for the row's payment. */
  ghost predicate RowIndexed(s: State, n: Node, p: PaymentId)
    requires HasRow(s, n, p)
  {
    var k := LedgerOf(s, n).rows[p].logIndex;
    k in s.issued && s.issued[k] in s.calls && s.calls[s.issued[k]].entry.paymentID == p
  }

  ghost predicate Rows(s: State) {
    forall n, p :: HasRow(s, n, p) ==> RowIndexed(s, n, p)
  }

  /** Call `c` decided that `p` is `target`: a quorum acknowledged and its own
      guarded update took effect. A FAILED row needs a pay call that marked it. */
  ghost predicate Decided(s: State, c: nat, p: PaymentId, target: Status) {
    && c in s.calls && s.calls[c].entry.paymentID == p
    && RowIs(s, s.calls[c].node, p, target)
    && if target.Failed? then s.calls[c].kind.Pay? && s.calls[c].phase == Done(MarkedFailed)
       else
         && Target(s.calls[c].kind) == target
         && s.calls[c].indexed && !Early(s.calls[c].phase) && HasQuorum(s.calls[c])
  }

  ghost predicate Justified(s: State, p: PaymentId, target: Status) {
    exists c :: Decided(s, c, p, target)
  }

  ghost predicate Justifications(s: State) {
    forall n, p :: HasRow(s, n, p) && Terminal(LedgerOf(s, n).rows[p].status) ==>
                     Justified(s, p, LedgerOf(s, n).rows[p].status)
  }

  /** The payment lock: pay calls that share it and run never overlap, and once
      one succeeded no other is past admission. */
  ghost predicate Locks(s: State) {
    forall c, d :: c in s.calls && d in s.calls && c != d && SharesLock(s.calls[c], s.calls[d]) ==>
      && (s.calls[c].phase.Done? || s.calls[d].phase.Done?)
      && (s.calls[c].entry.paymentID == s.calls[d].entry.paymentID && Successful(s.calls[c].phase) ==>
            !Successful(s.calls[d].phase) && (s.calls[d].phase.Started? || s.calls[d].phase.Done?))
  }

  ghost predicate Inv(s: State) {
    Shape(s) && Indices(s) && Calls(s) && Net(s) && Rows(s) && Justifications(s) && Locks(s)
  }

  lemma InitInv()
    ensures Inv(INIT)
  {
  }

  // ---------------------------------------------------------------- Shape and growth

  /** A write the ledgers accept. */
  predicate Admissible(w: Write) {
    match w
    case NoWrite => true
    case Inserts(_, e) => ValidEntry(e)
    case Updates(_, _, t) => Terminal(t)
  }

  lemma EffectIsAdmissible(s: State, step: Step)
    requires Shape(s) && Enabled(s, step)
    ensures Admissible(Effect(s, step))
  {
  }

  lemma WrittenExtends(s: State, w: Write, t: State)
    requires forall n :: WellFormed(LedgerOf(s, n))
    requires Admissible(w) && t.ledgers == Written(s, w)
    ensures forall n :: Extends(LedgerOf(s, n), LedgerOf(t, n)) && WellFormed(LedgerOf(t, n))
  {
    match w {
      case NoWrite =>
      case Inserts(n, e) => InsertExtends(LedgerOf(s, n), e);
      case Updates(n, p, target) => UpdateExtends(LedgerOf(s, n), p, target);
    }
  }

  lemma WriteExtends(s: State, step: Step)
    requires Shape(s) && Enabled(s, step)
    ensures forall n :: Extends(LedgerOf(s, n), LedgerOf(Apply(s, step), n)) && WellFormed(LedgerOf(Apply(s, step), n))
  {
    EffectIsAdmissible(s, step);
    WrittenExtends(s, Effect(s, step), Apply(s, step));
  }

  lemma NextIndexBound(v: int)
    requires 0 <= v
    ensures NextIndex(v) <= v + 1
  {
  }

  lemma MovedGrows(s: State, step: Step)
    requires Enabled(s, step) && Moves(step) && !step.Start?
    requires s.calls[step.call].phase.HeadGot? ==> !s.calls[step.call].indexed
    ensures CallGrows(s.calls[step.call], Moved(s, step))
  {
  }

  lemma HeadGrows(s: State, step: Step)
    requires Shape(s) && Indices(s) && Enabled(s, step)
    ensures Raised(s.head, Apply(s, step).head)
    ensures forall k :: k in s.issued ==> k in Apply(s, step).issued && Apply(s, step).issued[k] == s.issued[k]
  {
  }

  lemma StepGrows(s: State, step: Step)
    requires Shape(s) && Indices(s) && Enabled(s, step)
    ensures Grows(s, Apply(s, step))
  {
    WriteExtends(s, step);
    HeadGrows(s, step);
    var t := Apply(s, step);
    forall c | c in s.calls
      ensures c in t.calls && CallGrows(s.calls[c], t.calls[c])
    {
      if Moves(step) && c == step.call {
        MovedGrows(s, step);
      }
    }
  }

  // ---------------------------------------------------------------- what growth preserves

  lemma RowsStay(s: State, t: State, n: Node, p: PaymentId)
    requires Grows(s, t)
    ensures HasRow(s, n, p) ==>
              && HasRow(t, n, p)
              && LedgerOf(t, n).rows[p].logIndex == LedgerOf(s, n).rows[p].logIndex
              && (Terminal(LedgerOf(s, n).rows[p].status) ==>
                    LedgerOf(t, n).rows[p].status == LedgerOf(s, n).rows[p].status)
  {
  }

  lemma QuorumStays(a: Call, b: Call)
    requires CallGrows(a, b) && !Early(a.phase) && HasQuorum(a)
    ensures HasQuorum(b)
  {
    Quorum.SubsetSize(a.acks, b.acks);
  }

  lemma AcknowledgedStays(s: State, t: State, call: Call)
    requires Grows(s, t) && Acknowledged(s, call)
    ensures Acknowledged(t, call)
  {
  }

  lemma ProgressStays(s: State, t: State, call: Call)
    requires Grows(s, t) && Progress(s, call)
    ensures Progress(t, call)
  {
  }

  lemma HoldsStays(s: State, t: State, m: Message)
    requires Grows(s, t) && Holds(s, m)
    ensures Holds(t, m)
  {
    match m
    case AppendRequest(c, i) =>
    case AppendAck(c, i) => RowsStay(s, t, s.calls[c].followers[i], s.calls[c].entry.paymentID);
    case FinalizeRequest(c, i) =>
      RowsStay(s, t, s.calls[c].node, s.calls[c].entry.paymentID);
      QuorumStays(s.calls[c], t.calls[c]);
    case FinalizeAck(c, i) => RowsStay(s, t, s.calls[c].followers[i], s.calls[c].entry.paymentID);
    case CatchUpRow(source, row) => RowsStay(s, t, source, row.paymentID);
  }

  lemma DecidedStays(s: State, t: State, c: nat, p: PaymentId, target: Status)
    requires Grows(s, t) && Terminal(target) && Decided(s, c, p, target)
    ensures Decided(t, c, p, target)
  {
    RowsStay(s, t, s.calls[c].node, p);
    if !target.Failed? {
      QuorumStays(s.calls[c], t.calls[c]);
    }
  }

  lemma JustifiedStays(s: State, t: State, p: PaymentId, target: Status)
    requires Grows(s, t) && Terminal(target) && Justified(s, p, target)
    ensures Justified(t, p, target)
  {
    var c :| Decided(s, c, p, target);
    DecidedStays(s, t, c, p, target);
  }

  // ---------------------------------------------------------------- every step keeps the invariants

  /** The head after a step, whatever else the step does. */
  lemma HeadAdvancesByOne(s: State, step: Step)
    requires Shape(s) && Indices(s) && Enabled(s, step) && Wins(s, step)
    ensures s.calls[step.call].phase.next == s.head.value + 1
  {
  }

  lemma MovedIsValid(s: State, step: Step)
    requires Shape(s) && Enabled(s, step) && Moves(step)
    requires Wins(s, step) ==> 0 <= s.calls[step.call].phase.next
    ensures ValidEntry(Moved(s, step).entry) && Moved(s, step).entry.status.Pending?
  {
  }

  lemma CallsStayValid(s: State, step: Step)
    requires Shape(s) && Indices(s) && Enabled(s, step) && Moves(step)
    ensures ValidEntry(Moved(s, step).entry) && Moved(s, step).entry.status.Pending?
  {
    if Wins(s, step) {
      HeadAdvancesByOne(s, step);
    }
    MovedIsValid(s, step);
  }

  /** The issued indices stay 1 to the head. */
  lemma IssuedFollows(s: State, step: Step)
    requires Shape(s) && Indices(s) && Enabled(s, step)
    ensures 0 <= Apply(s, step).head.value
    ensures forall k :: k in Apply(s, step).issued <==> 1 <= k <= Apply(s, step).head.value
  {
    if Wins(s, step) {
      HeadAdvancesByOne(s, step);
    }
  }

  lemma StepKeepsShape(s: State, step: Step)
    requires Shape(s) && Indices(s) && Enabled(s, step)
    ensures Shape(Apply(s, step))
  {
    WriteExtends(s, step);
    IssuedFollows(s, step);
    if Moves(step) {
      CallsStayValid(s, step);
    }
  }

  /** What a step leaves alone in its call. */
  lemma MovedFrame(s: State, step: Step)
    requires Enabled(s, step) && Moves(step) && !step.Start?
    ensures var a, b := s.calls[step.call], Moved(s, step);
            && b.kind == a.kind && b.node == a.node && b.entry.paymentID == a.entry.paymentID
            && (!Wins(s, step) ==> b.entry == a.entry && b.indexed == a.indexed)
            && (!step.ListFollowers? ==> b.followers == a.followers)
            && (!step.HearAppend? ==> b.heard == a.heard && b.acks == a.acks)
            && (!step.HearFinalize? ==> b.finals == a.finals)
  {
  }

  /** A moved call still knows the head. */
  lemma MovedKnowsTheHead(s: State, step: Step, head: Register)
    requires Shape(s) && Indices(s) && Enabled(s, step) && Moves(step)
    requires !Wins(s, step) ==> head == s.head
    ensures HeadKnown(head, Moved(s, step).phase)
  {
    NextIndexBound(s.head.value);
  }

  lemma MovedIsIndexed(s: State, step: Step)
    requires Indices(s) && Enabled(s, step) && Moves(step)
    ensures var b := Moved(s, step);
            && (!Early(b.phase) && !b.phase.Done? ==> b.indexed)
            && (Early(b.phase) ==> (b.indexed <==> b.phase.Indexed?))
  {
  }

  lemma StepKeepsIndices(s: State, step: Step)
    requires Shape(s) && Indices(s) && Enabled(s, step)
    ensures Indices(Apply(s, step))
  {
    var t := Apply(s, step);
    if Moves(step) {
      MovedKnowsTheHead(s, step, t.head);
      MovedIsIndexed(s, step);
      if !step.Start? {
        MovedFrame(s, step);
      }
      IndicesFollow(s, t, step.call, Moved(s, step), Wins(s, step));
    }
  }

  /** One call replaced, and issued the next index if it won it. */
  ghost predicate Replaces(s: State, t: State, c: nat, b: Call, won: bool) {
    && t.calls == s.calls[c := b]
    && if won then
         && c in s.calls && !s.calls[c].indexed
         && b.indexed && b.entry.logIndex == s.head.value + 1
         && t.head == Register(s.head.value + 1, s.head.version + 1)
         && t.issued == s.issued[s.head.value + 1 := c]
       else
         && t.head == s.head && t.issued == s.issued
         && (if c in s.calls then b.indexed == s.calls[c].indexed && b.entry.logIndex == s.calls[c].entry.logIndex
             else !b.indexed)
  }

  lemma HeadStaysKnown(s: State, t: State, c: nat, b: Call, won: bool)
    requires Indices(s) && Replaces(s, t, c, b, won) && HeadKnown(t.head, b.phase)
    ensures forall d :: d in t.calls ==> HeadKnown(t.head, t.calls[d].phase)
  {
    forall d | d in t.calls && d != c
      ensures HeadKnown(t.head, t.calls[d].phase)
    {
      assert HeadKnown(s.head, s.calls[d].phase);
    }
  }

  lemma IssueStaysExact(s: State, t: State, c: nat, b: Call, won: bool)
    requires Shape(s) && Indices(s) && Replaces(s, t, c, b, won)
    ensures forall k :: k in t.issued ==>
              t.issued[k] in t.calls && t.calls[t.issued[k]].indexed && t.calls[t.issued[k]].entry.logIndex == k
    ensures forall d :: d in t.calls && t.calls[d].indexed ==>
              t.calls[d].entry.logIndex in t.issued && t.issued[t.calls[d].entry.logIndex] == d
  {
    forall k | k in t.issued
      ensures t.issued[k] in t.calls && t.calls[t.issued[k]].indexed && t.calls[t.issued[k]].entry.logIndex == k
    {
      assert k in s.issued || k == s.head.value + 1;
    }
    forall d | d in t.calls && t.calls[d].indexed
      ensures t.calls[d].entry.logIndex in t.issued && t.issued[t.calls[d].entry.logIndex] == d
    {
      assert d == c || (s.calls[d].entry.logIndex in s.issued && s.calls[d].entry.logIndex <= s.head.value);
    }
  }

  lemma IndicesFollow(s: State, t: State, c: nat, b: Call, won: bool)
    requires Shape(s) && Indices(s) && Replaces(s, t, c, b, won)
    requires HeadKnown(t.head, b.phase)
    requires !Early(b.phase) && !b.phase.Done? ==> b.indexed
    requires Early(b.phase) ==> (b.indexed <==> b.phase.Indexed?)
    ensures Indices(t)
  {
    HeadStaysKnown(s, t, c, b, won);
    IssueStaysExact(s, t, c, b, won);
  }

  lemma MovedIsAcknowledged(s: State, step: Step)
    requires Calls(s) && Net(s) && Enabled(s, step) && Moves(step) && !step.Start?
    requires CallGrows(s.calls[step.call], Moved(s, step))
    ensures Acknowledged(s, Moved(s, step))
  {
  }

  /** Which phases a step can lead into, and from where. */
  lemma PhaseOrigins(s: State, step: Step)
    requires Enabled(s, step) && Moves(step) && !step.Start?
    ensures var a, b := s.calls[step.call].phase, NextPhase(s, step);
            && (PastAppend(b) ==> PastAppend(a) || (step.CheckLocal? && step.ok))
            && (PastQuorum(b) ==> PastQuorum(a) || (step.Decide? && HasQuorum(s.calls[step.call])))
            && (Successful(b) ==> Successful(a) || (step.ReportLocal? && step.ok))
            && (b == Done(OkRecorded) ==> step.Admit? && TargetHeld(s, step.call))
            && (PastQuorum(b) ==> !step.HearAppend? && !step.ListFollowers?)
            && (b.Failing? ==> s.calls[step.call].kind.Pay?)
  {
  }

  lemma MovedProgresses(s: State, step: Step)
    requires Calls(s) && Indices(s) && Enabled(s, step) && Moves(step) && !step.Start?
    ensures Progress(s, Moved(s, step))
  {
    PhaseOrigins(s, step);
    MovedFrame(s, step);
    ProgressFollows(s, step.call, Moved(s, step),
                    step.CheckLocal? && step.ok, step.Decide?, step.ReportLocal? && step.ok);
  }

  lemma ProgressFollows(s: State, c: nat, b: Call, checked: bool, decides: bool, reports: bool)
    requires Calls(s) && Indices(s) && c in s.calls
    requires var a := s.calls[c];
             && b.kind == a.kind && b.node == a.node && b.entry.paymentID == a.entry.paymentID
             && (a.indexed ==> b.indexed)
             && (PastAppend(b.phase) ==> PastAppend(a.phase) || checked)
             && (checked ==> a.phase.Appended? && HasRow(s, a.node, a.entry.paymentID))
             && (PastQuorum(b.phase) ==> b.acks == a.acks && b.followers == a.followers)
             && (PastQuorum(b.phase) ==> PastQuorum(a.phase) || (decides && HasQuorum(a)))
             && (Successful(b.phase) ==> Successful(a.phase) || reports)
             && (reports || b.phase == Done(OkRecorded) ==> TargetHeld(s, c))
             && (b.phase.Announcing? ==> b.phase.told <= |b.followers|)
             && (b.phase.Failing? ==> b.kind.Pay?)
    ensures Progress(s, b)
  {
  }

  lemma IndexedPayEnds(s: State, step: Step)
    requires Indices(s) && Enabled(s, step) && Moves(step) && !step.Start? && s.calls[step.call].kind.Pay?
    ensures var b := Moved(s, step);
            b.indexed && b.phase.Done? ==>
              b.phase.answer.OkReplicated? || b.phase.answer.MarkedFailed? || b.phase.answer.NoAnswer?
  {
  }

  lemma MovedRowIsClean(s: State, step: Step, t: State)
    requires Calls(s) && Enabled(s, step) && Moves(step) && !step.Start? && Grows(s, t)
    requires s.calls[step.call].kind.Pay? && !Moved(s, step).faulted
    requires var p, n := s.calls[step.call].entry.paymentID, s.calls[step.call].node;
             && (step.InsertLocal? && step.ran ==> HasRow(t, n, p))
             && (step.FailLocal? && step.ran && HasRow(t, n, p) ==> Terminal(LedgerOf(t, n).rows[p].status))
    ensures CleanRow(t, Moved(s, step))
  {
    var call := s.calls[step.call];
    assert CleanPay(s, call) && Progress(s, call);
    RowsStay(s, t, call.node, call.entry.paymentID);
    MovedFrame(s, step);
  }

  /** The two local statements that CleanPay looks at. */
  lemma LocalWrites(s: State, step: Step)
    requires Shape(s) && Enabled(s, step) && (step.InsertLocal? || step.FailLocal?) && step.ran
    ensures var t, n, p := Apply(s, step), s.calls[step.call].node, s.calls[step.call].entry.paymentID;
            && (step.InsertLocal? ==> HasRow(t, n, p))
            && (step.FailLocal? && HasRow(t, n, p) ==> Terminal(LedgerOf(t, n).rows[p].status))
  {
  }

  lemma MovedIsGood(s: State, step: Step, t: State)
    requires Shape(s) && Indices(s) && Calls(s) && Net(s) && Enabled(s, step) && Moves(step) && !step.Start?
    requires Grows(s, t) && t == Apply(s, step) && CallGrows(s.calls[step.call], Moved(s, step))
    ensures Good(t, Moved(s, step))
  {
    var b := Moved(s, step);
    MovedIsAcknowledged(s, step);
    AcknowledgedStays(s, t, b);
    MovedProgresses(s, step);
    ProgressStays(s, t, b);
    if b.kind.Pay? {
      IndexedPayEnds(s, step);
      if !b.faulted {
        if (step.InsertLocal? || step.FailLocal?) && step.ran {
          LocalWrites(s, step);
        }
        MovedRowIsClean(s, step, t);
      }
    }
  }

  lemma GoodStays(s: State, t: State, call: Call)
    requires Grows(s, t) && Good(s, call)
    ensures Good(t, call)
  {
  }

  lemma NewIsGood(s: State, kind: Kind, node: Node, e: LogEntry)
    ensures Good(s, NewCall(kind, node, e))
  {
  }

  lemma CallsFollow(s: State, t: State, c: nat)
    requires Calls(s) && Grows(s, t) && c in t.calls && t.calls == s.calls[c := t.calls[c]]
    requires Good(t, t.calls[c])
    ensures Calls(t)
  {
    forall d | d in t.calls && d != c
      ensures Good(t, t.calls[d])
    {
      GoodStays(s, t, s.calls[d]);
    }
  }

  lemma StepKeepsCalls(s: State, step: Step)
    requires Inv(s) && Enabled(s, step) && Grows(s, Apply(s, step))
    ensures Calls(Apply(s, step))
  {
    var t := Apply(s, step);
    if !Moves(step) {
      forall c | c in t.calls
        ensures Good(t, t.calls[c])
      {
        GoodStays(s, t, s.calls[c]);
      }
    } else {
      if step.Start? {
        NewIsGood(t, step.kind, step.node, step.entry);
      } else {
        assert CallGrows(s.calls[step.call], t.calls[step.call]);
        MovedIsGood(s, step, t);
      }
      CallsFollow(s, t, step.call);
    }
  }

  lemma RequestHolds(s: State, c: nat, i: nat, ok: bool)
    requires Indices(s) && Enabled(s, CheckLocal(c, ok)) && i < |s.calls[c].followers|
    ensures Holds(s, AppendRequest(c, i))
  {
  }

  lemma AckHolds(s: State, t: State, c: nat, i: nat)
    requires Net(s) && Addresses(s, c, i) && AppendRequest(c, i) in s.net && Grows(s, t)
    requires HasRow(t, s.calls[c].followers[i], s.calls[c].entry.paymentID)
    ensures Holds(t, AppendAck(c, i))
  {
    HoldsStays(s, t, AppendRequest(c, i));
  }

  lemma AnnouncementHolds(s: State, c: nat)
    requires Indices(s) && Calls(s) && Enabled(s, SendFinalize(c))
    ensures Holds(s, FinalizeRequest(c, s.calls[c].phase.told))
  {
    assert Good(s, s.calls[c]);
  }

  lemma ReportHolds(s: State, c: nat, i: nat)
    requires Net(s) && Enabled(s, FollowerReport(c, i))
    ensures Holds(s, FinalizeAck(c, i))
  {
    assert Holds(s, FinalizeRequest(c, i));
  }

  lemma CopyHolds(s: State, source: Node, p: PaymentId)
    requires Shape(s) && Enabled(s, ServeCatchUp(source, p))
    ensures Holds(s, CatchUpRow(source, LedgerOf(s, source).rows[p]))
  {
    assert RowWellFormed(LedgerOf(s, source), p);
  }

  lemma SentHoldsNow(s: State, step: Step, m: Message)
    requires Shape(s) && Indices(s) && Calls(s) && Net(s) && Enabled(s, step) && m in Sent(s, step)
    requires !step.FollowerAppend?
    ensures Holds(s, m)
  {
    match step
    case CheckLocal(c, ok) => RequestHolds(s, c, m.to, ok);
    case SendFinalize(c) => AnnouncementHolds(s, c);
    case FollowerReport(c, i) => ReportHolds(s, c, i);
    case ServeCatchUp(source, p) => CopyHolds(s, source, p);
    case _ =>
  }

  /** A sent message is true in any state the step's one may grow into. */
  lemma SentHolds(s: State, step: Step, t: State, m: Message)
    requires Shape(s) && Indices(s) && Calls(s) && Net(s) && Enabled(s, step) && m in Sent(s, step)
    requires Grows(s, t)
    requires step.FollowerAppend? ==>
               HasRow(t, s.calls[step.call].followers[step.to], s.calls[step.call].entry.paymentID)
    ensures Holds(t, m)
  {
    if step.FollowerAppend? {
      AckHolds(s, t, step.call, step.to);
    } else {
      SentHoldsNow(s, step, m);
      HoldsStays(s, t, m);
    }
  }

  lemma FollowerAppendLands(s: State, step: Step)
    requires Enabled(s, step) && step.FollowerAppend?
    ensures HasRow(Apply(s, step), s.calls[step.call].followers[step.to], s.calls[step.call].entry.paymentID)
  {
  }

  lemma StepKeepsNet(s: State, step: Step)
    requires Inv(s) && Enabled(s, step) && Grows(s, Apply(s, step))
    ensures Net(Apply(s, step))
  {
    var t := Apply(s, step);
    if step.FollowerAppend? {
      FollowerAppendLands(s, step);
    }
    forall m | m in t.net
      ensures Holds(t, m)
    {
      if m in s.net {
        HoldsStays(s, t, m);
      } else {
        SentHolds(s, step, t, m);
      }
    }
  }

  // ---------------------------------------------------------------- rows and what decided them

  /** How a row can differ after one write. */
  lemma WrittenRow(s: State, w: Write, t: State, n: Node, p: PaymentId)
    requires t.ledgers == Written(s, w) && HasRow(t, n, p)
    ensures !HasRow(s, n, p) ==>
              && w.Inserts? && w.node == n && w.entry.paymentID == p
              && LedgerOf(t, n).rows[p].logIndex == w.entry.logIndex
              && LedgerOf(t, n).rows[p].status == w.entry.status
    ensures HasRow(s, n, p) && LedgerOf(t, n).rows[p].status != LedgerOf(s, n).rows[p].status ==>
              && w.Updates? && w.node == n && w.pid == p
              && RowIs(s, n, p, Pending) && RowIs(t, n, p, w.target)
  {
  }

  lemma InsertIsIndexed(s: State, step: Step)
    requires Inv(s) && Enabled(s, step) && Effect(s, step).Inserts?
    ensures var e := Effect(s, step).entry;
            && e.status.Pending?
            && e.logIndex in s.issued && s.issued[e.logIndex] in s.calls
            && s.calls[s.issued[e.logIndex]].entry.paymentID == e.paymentID
  {
    match step
    case InsertLocal(c, _) => assert s.calls[c].indexed;
    case FollowerAppend(c, i, _) => assert Holds(s, AppendRequest(c, i));
    case CatchUpInsert(_, m) =>
      assert Holds(s, m);
      assert RowIndexed(s, m.source, m.row.paymentID);
  }

  lemma StepKeepsRows(s: State, step: Step)
    requires Inv(s) && Enabled(s, step) && Grows(s, Apply(s, step))
    ensures Rows(Apply(s, step))
  {
    var t, w := Apply(s, step), Effect(s, step);
    forall n, p | HasRow(t, n, p)
      ensures RowIndexed(t, n, p)
    {
      WrittenRow(s, w, t, n, p);
      if HasRow(s, n, p) {
        RowsStay(s, t, n, p);
        assert RowIndexed(s, n, p);
      } else {
        InsertIsIndexed(s, step);
      }
    }
  }

  /** An UPDATE by a call on its own node, once in effect, is the decision. */
  lemma LocalUpdateDecides(s: State, step: Step, t: State)
    requires Indices(s) && Calls(s) && Enabled(s, step) && (step.UpdateLocal? || step.FailLocal?) && step.ran
    requires step.call in t.calls && t.calls[step.call] == Moved(s, step)
    requires var w := Effect(s, step); RowIs(t, w.node, w.pid, w.target)
    ensures var w := Effect(s, step); Decided(t, step.call, w.pid, w.target)
  {
  }

  /** An UPDATE that no other node asked for is that of a running call. */
  lemma OwnUpdateRuns(s: State, step: Step)
    requires Enabled(s, step) && Effect(s, step).Updates? && !step.FollowerUpdate? && !step.CatchUpUpdate?
    ensures step.UpdateLocal? || step.FailLocal?
    ensures s.calls[step.call].phase.Quorate? || s.calls[step.call].phase.Failing?
    ensures Effect(s, step).pid == s.calls[step.call].entry.paymentID && Effect(s, step).node == s.calls[step.call].node
  {
  }

  /** And any other repeats what a node already holds. */
  lemma RelayHasSource(s: State, step: Step) returns (m: Node)
    requires Net(s) && Enabled(s, step) && (step.FollowerUpdate? || step.CatchUpUpdate?)
    ensures RowIs(s, m, Effect(s, step).pid, Effect(s, step).target)
  {
    if step.FollowerUpdate? {
      assert Holds(s, FinalizeRequest(step.call, step.to));
      m := s.calls[step.call].node;
    } else {
      assert Holds(s, step.copy);
      m := step.copy.source;
    }
  }

  /** An UPDATE on behalf of another node carries out a decision made earlier. */
  lemma RelayedUpdateWasDecided(s: State, step: Step)
    requires Net(s) && Justifications(s) && Enabled(s, step) && (step.FollowerUpdate? || step.CatchUpUpdate?)
    ensures var w := Effect(s, step); Justified(s, w.pid, w.target)
  {
  }

  lemma RelayedUpdateIsJustified(s: State, step: Step, t: State)
    requires Net(s) && Justifications(s) && Shape(s) && Enabled(s, step) && Grows(s, t)
    requires step.FollowerUpdate? || step.CatchUpUpdate?
    ensures var w := Effect(s, step); Justified(t, w.pid, w.target)
  {
    RelayedUpdateWasDecided(s, step);
    EffectIsAdmissible(s, step);
    JustifiedStays(s, t, Effect(s, step).pid, Effect(s, step).target);
  }

  lemma InsertsArePending(s: State, step: Step)
    requires Shape(s) && Enabled(s, step)
    ensures Effect(s, step).Inserts? ==> Effect(s, step).entry.status.Pending?
  {
  }

  /** An UPDATE that takes effect carries out a decision. */
  lemma UpdateIsJustified(s: State, step: Step)
    requires Inv(s) && Enabled(s, step) && Grows(s, Apply(s, step)) && Effect(s, step).Updates?
    ensures var t, w := Apply(s, step), Effect(s, step);
            RowIs(t, w.node, w.pid, w.target) ==> Justified(t, w.pid, w.target)
  {
    var t, w := Apply(s, step), Effect(s, step);
    if step.FollowerUpdate? || step.CatchUpUpdate? {
      RelayedUpdateIsJustified(s, step, t);
    } else if RowIs(t, w.node, w.pid, w.target) {
      LocalUpdateDecides(s, step, t);
    }
  }

  /** A terminal row after a write, given that writing updates are justified. */
  lemma RowsStayJustified(s: State, w: Write, t: State)
    requires Justifications(s) && Grows(s, t) && t.ledgers == Written(s, w)
    requires w.Inserts? ==> w.entry.status.Pending?
    requires w.Updates? && RowIs(t, w.node, w.pid, w.target) ==> Justified(t, w.pid, w.target)
    ensures Justifications(t)
  {
    forall n, p | HasRow(t, n, p) && Terminal(LedgerOf(t, n).rows[p].status)
      ensures Justified(t, p, LedgerOf(t, n).rows[p].status)
    {
      WrittenRow(s, w, t, n, p);
      if HasRow(s, n, p) && LedgerOf(t, n).rows[p].status == LedgerOf(s, n).rows[p].status {
        JustifiedStays(s, t, p, LedgerOf(s, n).rows[p].status);
      }
    }
  }

  lemma StepKeepsJustifications(s: State, step: Step)
    requires Inv(s) && Enabled(s, step) && Grows(s, Apply(s, step))
    ensures Justifications(Apply(s, step))
  {
    InsertsArePending(s, step);
    if Effect(s, step).Updates? {
      UpdateIsJustified(s, step);
    }
    RowsStayJustified(s, Effect(s, step), Apply(s, step));
  }

  // ---------------------------------------------------------------- the payment lock

  /** A call that has just started is admitted, answered or dies. */
  lemma FirstPhases(s: State, step: Step)
    requires Enabled(s, step) && Moves(step) && !step.Start? && s.calls[step.call].phase.Started?
    ensures NextPhase(s, step) == Done(NoAnswer) || NextPhase(s, step) == Admission(s, s.calls[step.call])
  {
  }

  lemma PhaseLocks(s: State, step: Step)
    requires Calls(s) && Enabled(s, step) && Moves(step) && !step.Start?
    ensures var call, b := s.calls[step.call], NextPhase(s, step);
            && !call.phase.Done?
            && (Successful(b) ==> call.phase.Updated? || call.phase.Announcing?)
            && (call.phase.Started? && TargetHeld(s, step.call) ==> b.Done? && !Successful(b))
  {
    if s.calls[step.call].phase.Started? {
      FirstPhases(s, step);
    }
  }

  lemma StepKeepsLocks(s: State, step: Step)
    requires Inv(s) && Enabled(s, step)
    ensures Locks(Apply(s, step))
  {
    if Moves(step) {
      if step.Start? {
        LocksAdmit(s, Apply(s, step), step.call, NewCall(step.kind, step.node, step.entry));
      } else {
        PhaseLocks(s, step);
        MovedFrame(s, step);
        LocksFollow(s, Apply(s, step), step.call, Moved(s, step));
      }
    }
  }

  lemma LocksAdmit(s: State, t: State, c: nat, b: Call)
    requires Locks(s) && c !in s.calls && t.calls == s.calls[c := b]
    requires b.phase.Started? && (b.kind.Pay? ==> LockFree(s, b))
    ensures Locks(t)
  {
  }

  lemma LocksFollow(s: State, t: State, c: nat, b: Call)
    requires Locks(s) && Calls(s) && c in s.calls && t.calls == s.calls[c := b]
    requires var a := s.calls[c];
             && b.kind == a.kind && b.node == a.node && b.entry.paymentID == a.entry.paymentID
             && !a.phase.Done?
             && (Successful(b.phase) ==> a.phase.Updated? || a.phase.Announcing?)
             && (a.phase.Started? && TargetHeld(s, c) ==> b.phase.Done? && !Successful(b.phase))
    ensures Locks(t)
  {
  }

  // ---------------------------------------------------------------- all together

  lemma StepKeepsInv(s: State, step: Step)
    requires Inv(s) && Enabled(s, step)
    ensures Inv(Apply(s, step)) && Grows(s, Apply(s, step))
  {
    StepGrows(s, step);
    StepKeepsShape(s, step);
    StepKeepsIndices(s, step);
    StepKeepsCalls(s, step);
    StepKeepsNet(s, step);
    StepKeepsRows(s, step);
    StepKeepsJustifications(s, step);
    StepKeepsLocks(s, step);
  }

  lemma {:induction false} RunKeepsInv(steps: seq<Step>)
    requires Exec(steps).Some?
    ensures Inv(Exec(steps).value)
  {
    if steps == [] {
      InitInv();
    } else {
      RunKeepsInv(steps[..|steps| - 1]);
      StepKeepsInv(Exec(steps[..|steps| - 1]).value, steps[|steps| - 1]);
    }
  }

  lemma GrowsIsTransitive(a: State, b: State, c: State)
    requires Grows(a, b) && Grows(b, c)
    ensures Grows(a, c)
  {
  }

  /** Whatever holds forever: a run's later state has grown from any earlier one. */
  lemma {:induction false} RunGrows(steps: seq<Step>, more: seq<Step>)
    requires Exec(steps + more).Some?
    ensures Exec(steps).Some? && Grows(Exec(steps).value, Exec(steps + more).value)
  {
    var all := steps + more;
    if more == [] {
      assert all == steps;
    } else {
      assert all[..|all| - 1] == steps + more[..|more| - 1];
      RunGrows(steps, more[..|more| - 1]);
      RunKeepsInv(all[..|all| - 1]);
      var before := Exec(all[..|all| - 1]).value;
      StepKeepsInv(before, all[|all| - 1]);
      GrowsIsTransitive(Exec(steps).value, before, Exec(all).value);
    }
  }
}
