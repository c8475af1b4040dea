/** The cluster as a state machine: every database statement, register access
    and message is one atomic step, taken in any order
    (internal/api/http.go, internal/api/handlers.go, internal/replication/service.go,
    internal/coordination/counters.go and cmd/quorapay-node/main.go together).

    Messages stay on the net until dropped, so they may be lost, delayed,
    duplicated and reordered. Any node may act as leader at any time. */
module Cluster {
  import opened Wrappers
  import opened Replication
  import opened Storage
  import opened Counters
  import Quorum
  import CatchUp

  // ---------------------------------------------------------------- state

  datatype Kind = Pay | Cancel

  function Target(kind: Kind): Status {
    if kind.Pay? then Committed else Canceled
  }

  datatype Answer =
    | OkReplicated  // OK: committed (canceled) through this call
    | OkRecorded    // OK: it already was
    | Refused       // an error, nothing marked FAILED
    | MarkedFailed  // an error, after FailByPaymentID
    | NoAnswer      // an error or no reply: the call died where it stood

  datatype Phase =
    | Started                                  // pay: the payment lock is held
    | Admitted                                 // the existing row, if any, permits the call
    | HeadRead(next: int)                      // CurrentLogHead returned next - 1
    | HeadGot(next: int, version: nat)         // the loop of AdvanceLogHead, before Set
    | Indexed                                  // the log index is ours
    | Ready                                    // the follower list is known
    | Appended                                 // the local INSERT ran
    | Collecting                               // append requests are out
    | Quorate                                  // enough acknowledgements
    | Updated                                  // the local UPDATE ran
    | Announcing(told: nat)                    // local success; followers below told have been told
    | Failing                                  // pay: about to call FailByPaymentID
    | Done(answer: Answer)

  /** A pay or cancel call on `node`. `heard` are the followers whose append
      result arrived, `acks` those that acknowledged, `finals` those whose
      CommitAcknowledged flag is set. `indexed` and `faulted` are history: the
      entry carries an index of its own; a local database call failed. */
  datatype Call = Call(
    kind: Kind,
    node: Node,
    entry: LogEntry,
    phase: Phase,
    followers: seq<Node>,
    heard: set<nat>,
    acks: set<nat>,
    finals: set<nat>,
    indexed: bool,
    faulted: bool)

  datatype Message =
    | AppendRequest(call: nat, to: nat)
    | AppendAck(call: nat, to: nat)
    | FinalizeRequest(call: nat, to: nat)
    | FinalizeAck(call: nat, to: nat)
    | CatchUpRow(source: Node, row: Payment)

  /** `issued` is history: the call each log index was given to. */
  datatype State = State(
    ledgers: map<Node, Ledger>,
    head: Register,
    issued: map<int, nat>,
    calls: map<nat, Call>,
    net: set<Message>)

  const INIT := State(map[], Register(0, 0), map[], map[], {})

  function LedgerOf(s: State, n: Node): Ledger {
    if n in s.ledgers then s.ledgers[n] else EMPTY
  }

  predicate HasRow(s: State, n: Node, p: PaymentId) {
    Has(LedgerOf(s, n), p)
  }

  predicate RowIs(s: State, n: Node, p: PaymentId, st: Status) {
    StatusIs(LedgerOf(s, n), p, st)
  }

  /** Before the follower list is fixed. */
  predicate Early(phase: Phase) {
    phase.Started? || phase.Admitted? || phase.HeadRead? || phase.HeadGot? || phase.Indexed?
  }

  predicate Addresses(s: State, c: nat, i: nat) {
    c in s.calls && i < |s.calls[c].followers|
  }

  predicate HasQuorum(call: Call) {
    Quorum.QuorumOf(|call.acks|, |call.followers|)
  }

  /** lockPaymentID: pay calls whose payment id is not blank exclude each other
      by trimmed id. */
  predicate SharesLock(a: Call, b: Call) {
    && a.kind.Pay? && b.kind.Pay? && a.node == b.node
    && TrimSpace(a.entry.paymentID) == TrimSpace(b.entry.paymentID) != ""
  }

  predicate LockFree(s: State, call: Call) {
    forall c :: c in s.calls && SharesLock(call, s.calls[c]) ==> s.calls[c].phase.Done?
  }

  // ---------------------------------------------------------------- steps

  datatype Step =
    | Start(call: nat, kind: Kind, node: Node, entry: LogEntry)
    | Admit(call: nat)
    | ReadHead(call: nat)
    | GetHead(call: nat)
    | SetHead(call: nat)
    | ListFollowers(call: nat, followers: seq<Node>)
    | InsertLocal(call: nat, ran: bool)
    | CheckLocal(call: nat, ok: bool)
    | FollowerAppend(call: nat, to: nat, logicalTime: int)
    | HearAppend(call: nat, to: nat, ack: bool)
    | Decide(call: nat)
    | UpdateLocal(call: nat, ran: bool)
    | ReportLocal(call: nat, ok: bool)
    | SendFinalize(call: nat)
    | FollowerUpdate(call: nat, to: nat)
    | FollowerReport(call: nat, to: nat)
    | HearFinalize(call: nat, ok: bool)
    | Finish(call: nat)
    | FailLocal(call: nat, ran: bool)
    | Die(call: nat)
    | ServeCatchUp(source: Node, pid: PaymentId)
    | CatchUpInsert(node: Node, copy: Message)
    | CatchUpUpdate(node: Node, copy: Message)
    | Drop(message: Message)

  predicate Enabled(s: State, step: Step) {
    match step
    case Start(c, kind, node, e) =>
      && c !in s.calls
      && ValidEntry(e) && e.status.Pending? && e.logIndex == 0
      && (kind.Pay? ==> LockFree(s, NewCall(kind, node, e)))
    case Admit(c) => c in s.calls && s.calls[c].phase.Started?
    case ReadHead(c) => c in s.calls && s.calls[c].phase.Admitted?
    case GetHead(c) => c in s.calls && s.calls[c].phase.HeadRead?
    case SetHead(c) => c in s.calls && s.calls[c].phase.HeadGot?
    case ListFollowers(c, _) => c in s.calls && s.calls[c].phase.Indexed?
    case InsertLocal(c, _) => c in s.calls && s.calls[c].phase.Ready?
    case CheckLocal(c, ok) =>
      c in s.calls && s.calls[c].phase.Appended? && (ok ==> HasRow(s, s.calls[c].node, s.calls[c].entry.paymentID))
    case FollowerAppend(c, i, _) => Addresses(s, c, i) && AppendRequest(c, i) in s.net
    case HearAppend(c, i, ack) =>
      && c in s.calls && s.calls[c].phase.Collecting? && Addresses(s, c, i) && i !in s.calls[c].heard
      && (ack ==> AppendAck(c, i) in s.net)
    case Decide(c) =>
      && c in s.calls && s.calls[c].phase.Collecting?
      && forall i :: 0 <= i < |s.calls[c].followers| ==> i in s.calls[c].heard
    case UpdateLocal(c, _) => c in s.calls && s.calls[c].phase.Quorate?
    case ReportLocal(c, ok) =>
      c in s.calls && s.calls[c].phase.Updated? && (ok ==> TargetHeld(s, c))
    case SendFinalize(c) => c in s.calls && s.calls[c].phase.Announcing? && Addresses(s, c, s.calls[c].phase.told)
    case FollowerUpdate(c, i) => Addresses(s, c, i) && FinalizeRequest(c, i) in s.net
    case FollowerReport(c, i) =>
      && Addresses(s, c, i) && FinalizeRequest(c, i) in s.net
      && RowIs(s, s.calls[c].followers[i], s.calls[c].entry.paymentID, Target(s.calls[c].kind))
    case HearFinalize(c, ok) =>
      && c in s.calls && s.calls[c].phase.Announcing? && Addresses(s, c, s.calls[c].phase.told)
      && (ok ==> FinalizeAck(c, s.calls[c].phase.told) in s.net)
    case Finish(c) => c in s.calls && s.calls[c].phase.Announcing? && s.calls[c].phase.told == |s.calls[c].followers|
    case FailLocal(c, _) => c in s.calls && s.calls[c].phase.Failing?
    case Die(c) => c in s.calls && !s.calls[c].phase.Done?
    case ServeCatchUp(source, p) =>
      HasRow(s, source, p) && Terminal(LedgerOf(s, source).rows[p].status)
    case CatchUpInsert(_, m) => m.CatchUpRow? && m in s.net && ValidEntry(CopiedEntry(m))
    case CatchUpUpdate(_, m) => m.CatchUpRow? && m in s.net
    case Drop(m) => m in s.net
  }

  function NewCall(kind: Kind, node: Node, e: LogEntry): Call {
    Call(kind, node, e, Started, [], {}, {}, {}, false, false)
  }

  /** The call's own row has the call's status. */
  predicate TargetHeld(s: State, c: nat)
    requires c in s.calls
  {
    RowIs(s, s.calls[c].node, s.calls[c].entry.paymentID, Target(s.calls[c].kind))
  }

  /** A catch-up entry as the apply loop inserts it. */
  function CopiedEntry(m: Message): LogEntry
    requires m.CatchUpRow?
  {
    CatchUp.EntryOf(m.row).(status := Pending)
  }

  // ---------------------------------------------------------------- what a step does to the ledgers

  /** At most one statement runs on at most one ledger. */
  datatype Write =
    | NoWrite
    | Inserts(node: Node, entry: LogEntry)
    | Updates(node: Node, pid: PaymentId, target: Status)

  function Effect(s: State, step: Step): Write
    requires Enabled(s, step)
  {
    match step
    case InsertLocal(c, ran) => if ran then Inserts(s.calls[c].node, s.calls[c].entry) else NoWrite
    case FollowerAppend(c, i, t) => Inserts(s.calls[c].followers[i], s.calls[c].entry.(logicalTime := t))
    case UpdateLocal(c, ran) =>
      if ran then Updates(s.calls[c].node, s.calls[c].entry.paymentID, Target(s.calls[c].kind)) else NoWrite
    case FollowerUpdate(c, i) =>
      Updates(s.calls[c].followers[i], s.calls[c].entry.paymentID, Target(s.calls[c].kind))
    case FailLocal(c, ran) => if ran then Updates(s.calls[c].node, s.calls[c].entry.paymentID, Failed) else NoWrite
    case CatchUpInsert(n, m) => Inserts(n, CopiedEntry(m))
    case CatchUpUpdate(n, m) => Updates(n, m.row.paymentID, CatchUp.EntryOf(m.row).status)
    case _ => NoWrite
  }

  function Written(s: State, w: Write): map<Node, Ledger> {
    match w
    case NoWrite => s.ledgers
    case Inserts(n, e) => s.ledgers[n := Insert(LedgerOf(s, n), e)]
    case Updates(n, p, t) => s.ledgers[n := Update(LedgerOf(s, n), p, t)]
  }

  // ---------------------------------------------------------------- what a step does to its call

  /** Where a call goes when the replicator returns without success. */
  function AfterFailure(kind: Kind): Phase {
    if kind.Pay? then Failing else Done(Refused)
  }

  function Admission(s: State, call: Call): Phase {
    var l := LedgerOf(s, call.node);
    var p := call.entry.paymentID;
    if StatusIs(l, p, Target(call.kind)) then Done(OkRecorded)
    else if StatusIs(l, p, Failed) then Done(Refused)
    else if call.kind.Pay? && StatusIs(l, p, Pending) then Done(Refused)
    else if call.kind.Cancel? && StatusIs(l, p, Committed) then Done(Refused)
    else Admitted
  }

  predicate Moves(step: Step) {
    !step.FollowerAppend? && !step.FollowerUpdate? && !step.FollowerReport? && !step.ServeCatchUp?
    && !step.CatchUpInsert? && !step.CatchUpUpdate? && !step.Drop?
  }

  function NextPhase(s: State, step: Step): Phase
    requires Enabled(s, step) && Moves(step) && !step.Start?
  {
    var call := s.calls[step.call];
    match step
    case Admit(_) => Admission(s, call)
    case ReadHead(_) => HeadRead(NextIndex(s.head.value))
    case GetHead(_) =>
      if call.phase.next <= s.head.value then Done(Refused) else HeadGot(call.phase.next, s.head.version)
    case SetHead(_) => if Wins(s, step) then Indexed else HeadRead(call.phase.next)
    case ListFollowers(_, _) => Ready
    case InsertLocal(_, _) => Appended
    case CheckLocal(_, ok) => if ok then Collecting else AfterFailure(call.kind)
    case HearAppend(_, _, _) => Collecting
    case Decide(_) => if HasQuorum(call) then Quorate else AfterFailure(call.kind)
    case UpdateLocal(_, ran) => if ran then Updated else AfterFailure(call.kind)
    case ReportLocal(_, ok) => if ok then Announcing(0) else AfterFailure(call.kind)
    case SendFinalize(_) => call.phase
    case HearFinalize(_, _) => Announcing(call.phase.told + 1)
    case Finish(_) => Done(OkReplicated)
    case FailLocal(_, _) => Done(MarkedFailed)
    case Die(_) => Done(NoAnswer)
  }

  /** A local database call fails. An unsuccessful report is a fault only when
      the row does have the call's status. */
  predicate Faults(s: State, step: Step)
    requires Enabled(s, step)
  {
    match step
    case InsertLocal(_, ran) => !ran
    case CheckLocal(_, ok) => !ok
    case UpdateLocal(_, ran) => !ran
    case ReportLocal(c, ok) => !ok && TargetHeld(s, c)
    case FailLocal(_, ran) => !ran
    case _ => false
  }

  /** The CAS of AdvanceLogHead goes through. */
  predicate Wins(s: State, step: Step)
    requires Enabled(s, step)
  {
    step.SetHead? && s.calls[step.call].phase.version == s.head.version
  }

  function Moved(s: State, step: Step): Call
    requires Enabled(s, step) && Moves(step)
  {
    if step.Start? then NewCall(step.kind, step.node, step.entry)
    else
      var call := s.calls[step.call];
      Call(
        call.kind,
        call.node,
        if Wins(s, step) then call.entry.(logIndex := call.phase.next) else call.entry,
        NextPhase(s, step),
        if step.ListFollowers? then step.followers else call.followers,
        if step.HearAppend? then call.heard + {step.to} else call.heard,
        if step.HearAppend? && step.ack then call.acks + {step.to} else call.acks,
        if step.HearFinalize? && step.ok then call.finals + {call.phase.told} else call.finals,
        call.indexed || Wins(s, step),
        call.faulted || Faults(s, step))
  }

  // ---------------------------------------------------------------- the whole step

  function Sent(s: State, step: Step): set<Message>
    requires Enabled(s, step)
  {
    match step
    case CheckLocal(c, ok) =>
      if ok then set i | 0 <= i < |s.calls[c].followers| :: AppendRequest(c, i) else {}
    case FollowerAppend(c, i, _) => {AppendAck(c, i)}
    case SendFinalize(c) => {FinalizeRequest(c, s.calls[c].phase.told)}
    case FollowerReport(c, i) => {FinalizeAck(c, i)}
    case ServeCatchUp(source, p) => {CatchUpRow(source, LedgerOf(s, source).rows[p])}
    case _ => {}
  }

  function Apply(s: State, step: Step): State
    requires Enabled(s, step)
  {
    State(
      Written(s, Effect(s, step)),
      if Wins(s, step) then Register(s.calls[step.call].phase.next, s.head.version + 1) else s.head,
      if Wins(s, step) then s.issued[s.calls[step.call].phase.next := step.call] else s.issued,
      if Moves(step) then s.calls[step.call := Moved(s, step)] else s.calls,
      if step.Drop? then s.net - {step.message} else s.net + Sent(s, step))
  }

  /** The state after a run from INIT, if every step was enabled in turn. */
  function Exec(steps: seq<Step>): Option<State> {
    if steps == [] then Some(INIT)
    else
      var before := Exec(steps[..|steps| - 1]);
      var step := steps[|steps| - 1];
      if before.Some? && Enabled(before.value, step) then Some(Apply(before.value, step)) else None
  }
}
