/** Building runs of the cluster, one enabled step at a time. */
module Runs {
  import opened Wrappers
  import opened Cluster

  /** `t` follows `s` by the enabled step. */
  ghost predicate Follows(s: State, step: Step, t: State) {
    Enabled(s, step) && Apply(s, step) == t
  }

  lemma Extend(steps: seq<Step>, s: State, step: Step, t: State) returns (longer: seq<Step>)
    requires Exec(steps) == Some(s) && Follows(s, step, t)
    ensures longer == steps + [step] && Exec(longer) == Some(t)
  {
    longer := steps + [step];
    assert longer[..|longer| - 1] == steps;
  }

  function With(s: State, c: nat, b: Call): State {
    s.(calls := s.calls[c := b])
  }

  /** A step that writes to a ledger and moves no call. */
  lemma OnlyWrites(s: State, step: Step, w: Write)
    requires Enabled(s, step) && !Moves(step) && !step.Drop?
    requires Effect(s, step) == w && !Wins(s, step) && Sent(s, step) == {}
    ensures Follows(s, step, s.(ledgers := Written(s, w)))
  {
  }

  /** A step that moves its call and writes to a ledger. */
  lemma MovesAndWrites(s: State, step: Step, b: Call, w: Write)
    requires Enabled(s, step) && Moves(step) && !step.Start? && Moved(s, step) == b
    requires Effect(s, step) == w && !Wins(s, step) && Sent(s, step) == {}
    ensures Follows(s, step, With(s, step.call, b).(ledgers := Written(s, w)))
  {
  }

  /** A step that moves its call and does nothing else. */
  lemma OnlyMoves(s: State, step: Step, b: Call)
    requires Enabled(s, step) && Moves(step) && !step.Start? && Moved(s, step) == b
    requires Effect(s, step).NoWrite? && !Wins(s, step) && Sent(s, step) == {}
    ensures Follows(s, step, With(s, step.call, b))
  {
    MovesAndWrites(s, step, b, NoWrite);
  }
}
