/** Entry, status and text helpers shared by every component
    (internal/replication/types.go, internal/replication/protocol.go). */
module Replication {

  type PaymentId = string
  type Node = string

  /** `Other` is any text that is not one of the four supported statuses. */
  datatype Status = Pending | Committed | Failed | Canceled | Other(text: string)

  predicate IsValid(s: Status) {
    !s.Other?
  }

  /** The statuses a row never leaves. */
  predicate Terminal(s: Status) {
    s.Committed? || s.Failed? || s.Canceled?
  }

  datatype LogEntry = LogEntry(
    logIndex: int,
    term: int,
    leaderID: string,
    receivedBy: string,
    paymentID: PaymentId,
    amount: real,
    currency: string,
    status: Status,
    physicalTime: int,
    logicalTime: int)

  /** LogEntry.Validate */
  predicate ValidEntry(e: LogEntry) {
    && 0 <= e.logIndex
    && 0 <= e.term
    && e.leaderID != ""
    && e.paymentID != ""
    && 0.0 <= e.amount
    && e.currency != ""
    && IsValid(e.status)
  }

  /** unicode.IsSpace, as strings.TrimSpace uses it. */
  predicate IsSpace(c: char) {
    || '\t' <= c <= '\r' || c == ' ' || c == '\U{85}' || c == '\U{A0}' || c == '\U{1680}'
    || c == '\U{2028}' || c == '\U{2029}' || c == '\U{202F}' || c == '\U{205F}' || c == '\U{3000}'
    || '\U{2000}' <= c <= '\U{200A}'
  }

  function TrimLeft(s: string): string {
    if s != "" && IsSpace(s[0]) then TrimLeft(s[1..]) else s
  }

  function TrimRight(s: string): string {
    if s != "" && IsSpace(s[|s| - 1]) then TrimRight(s[..|s| - 1]) else s
  }

  function TrimSpace(s: string): string {
    TrimRight(TrimLeft(s))
  }

  ghost predicate AllSpaces(s: string) {
    forall i :: 0 <= i < |s| ==> IsSpace(s[i])
  }

  /** What is cut off is white space, and what is left has none at either end. */
  lemma {:induction false} TrimLeftCuts(s: string) returns (cut: string)
    ensures s == cut + TrimLeft(s) && AllSpaces(cut)
    ensures TrimLeft(s) == "" || !IsSpace(TrimLeft(s)[0])
  {
    if s == "" || !IsSpace(s[0]) {
      cut := "";
    } else {
      var rest := TrimLeftCuts(s[1..]);
      cut := [s[0]] + rest;
    }
  }

  lemma {:induction false} TrimRightCuts(s: string) returns (cut: string)
    ensures s == TrimRight(s) + cut && AllSpaces(cut)
    ensures TrimRight(s) == "" || !IsSpace(TrimRight(s)[|TrimRight(s)| - 1])
  {
    if s == "" || !IsSpace(s[|s| - 1]) {
      cut := "";
    } else {
      var rest := TrimRightCuts(s[..|s| - 1]);
      cut := rest + [s[|s| - 1]];
    }
  }

  lemma TrimSpaceCuts(s: string) returns (left: string, right: string)
    ensures s == left + TrimSpace(s) + right && AllSpaces(left) && AllSpaces(right)
    ensures var t := TrimSpace(s); t == "" || (!IsSpace(t[0]) && !IsSpace(t[|t| - 1]))
    ensures TrimSpace(s) == "" <==> AllSpaces(s)
  {
    left := TrimLeftCuts(s);
    right := TrimRightCuts(TrimLeft(s));
    var t := TrimSpace(s);
    assert t != "" ==> t[0] == TrimLeft(s)[0] && t[0] == s[|left|];
  }
}
