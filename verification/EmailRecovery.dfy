/** Email recovery against concurrent operators (`recover`, `wait_for_worker` and `rollback` in
    scripts/email_recovery_host.py): the procedure's steps interleaved with arbitrary writes by
    others. Every write takes a fresh timestamp. */
module EmailRecovery {
  import opened Effects
  import opened ControlRow

  /** The consumer heartbeat a snapshot carries; `generated` is the snapshot's own time. */
  datatype Heartbeat = Heartbeat(healthy: bool, commit: string, owner: bool, mode: string, at: int, generated: int)

  predicate FreshHeartbeat(b: Heartbeat, expected: string, since: int, active: bool) {
    && b.healthy && b.commit == expected && b.owner == active && b.mode == (if active then "active" else "shadow")
    && b.at > since && 0 <= b.generated - b.at < 120
  }

  datatype Procedure =
    | Fresh
    | Observed(before: Row, generated: int)
    | Ready(before: Row)
    | Enabled(before: Row, token: int)
    | Verified(before: Row, token: int, after: Row, beat: Heartbeat)
    | Failing(before: Row, enabled: Option<int>)
    | Pausing(token: int)
    | Succeeded(token: int, after: Row, beat: Heartbeat)
    | Ended

  /** The first snapshot, and when it was taken. */
  datatype Snapshot = Snapshot(row: Row, generated: int)

  /** `history` is every row the table held, oldest first. The rest is what has happened: the first
      snapshot, the standby heartbeat that was waited for, the positions of the procedure's own
      writes, and whether the reply to its enable arrived. */
  datatype State = State(history: seq<Entry>, proc: Procedure, observed: Option<Snapshot>, standby: Option<Heartbeat>,
                         enable: Option<nat>, answered: bool, pause: Option<nat>)

  datatype Event =
    | OperatorWrites(commit: string, delivery: bool, wechat: bool, activatedAt: Option<int>, phase: Phase, later: nat)
    | Observe(generated: int)
    | WaitShadow(beat: Heartbeat)
    | Enable(checks: Checkpoints, outcome: Outcome, later: nat)
    | WaitActive(beat: Heartbeat)
    | Raise
    | Succeed
    | Inspect
    | Pause(checks: Checkpoints, outcome: Outcome, later: nat)

  function Current(s: State): Row
    requires s.history != []
  {
    s.history[|s.history| - 1].row
  }

  function Append(s: State, row: Row, author: Author): State {
    s.(history := s.history + [Entry(row, author)])
  }

  function StepEnable(expected: string, s: State, e: Event): State
    requires s.history != [] && s.proc.Ready? && e.Enable?
  {
    var row := Current(s);
    var before := s.proc.before;
    if !e.outcome.Happened() || !MayMutate(row, e.checks, expected, true, before.updatedAt)
    then s.(proc := Failing(before, None))
    else
      var now := row.updatedAt + 1 + e.later;
      var proc := if e.outcome.Raised() then Failing(before, None) else Enabled(before, now);
      Append(s, Mutated(row, true, now), Recovery)
        .(enable := Some(|s.history|), answered := !e.outcome.Raised(), proc := proc)
  }

  function StepPause(expected: string, s: State, e: Event): State
    requires s.history != [] && s.proc.Pausing? && e.Pause?
  {
    var row := Current(s);
    if !e.outcome.Happened() || !MayMutate(row, e.checks, expected, false, s.proc.token) then s.(proc := Ended)
    else Append(s, Mutated(row, false, row.updatedAt + 1 + e.later), Recovery)
           .(pause := Some(|s.history|), proc := Ended)
  }

  /** `rollback`: fence only this recovery's own activation. */
  function StepInspect(s: State): State
    requires s.history != [] && s.proc.Failing?
  {
    var row := Current(s);
    if !row.wechat && s.proc.enabled.Some? && row.updatedAt == s.proc.enabled.value && row.delivery
    then s.(proc := Pausing(s.proc.enabled.value)) else s.(proc := Ended)
  }

  /** One event; an event that is not possible in `s` changes nothing. */
  function Apply(expected: string, s: State, e: Event): State
    requires s.history != []
  {
    var row := Current(s);
    match e
    case OperatorWrites(commit, delivery, wechat, activatedAt, phase, later) =>
      Append(s, Row(commit, delivery, wechat, activatedAt, row.updatedAt + 1 + later, phase), Operator)
    case Observe(generated) =>
      if !s.proc.Fresh? then s
      else if row.commit != expected || row.wechat || row.activatedAt.None? || row.delivery then s.(proc := Ended)
      else s.(proc := Observed(row, generated), observed := Some(Snapshot(row, generated)))
    case WaitShadow(beat) =>
      if !s.proc.Observed? then s
      else if row.updatedAt != s.proc.before.updatedAt || row.delivery || row.commit != expected || row.wechat
      then s.(proc := Failing(s.proc.before, None))
      else if FreshHeartbeat(beat, expected, s.proc.generated, false)
      then s.(proc := Ready(s.proc.before), standby := Some(beat))
      else s
    case Enable(_, _, _) => if s.proc.Ready? then StepEnable(expected, s, e) else s
    case WaitActive(beat) =>
      if !s.proc.Enabled? then s
      else if row.updatedAt != s.proc.token || !row.delivery || row.commit != expected || row.wechat
      then s.(proc := Failing(s.proc.before, Some(s.proc.token)))
      else if FreshHeartbeat(beat, expected, s.proc.token, true)
      then s.(proc := Verified(s.proc.before, s.proc.token, row, beat))
      else s
    case Raise =>
      (match s.proc
       case Observed(before, _) => s.(proc := Failing(before, None))
       case Ready(before) => s.(proc := Failing(before, None))
       case Enabled(before, token) => s.(proc := Failing(before, Some(token)))
       case Verified(before, token, _, _) => s.(proc := Failing(before, Some(token)))
       case _ => s)
    case Succeed =>
      if s.proc.Verified? then s.(proc := Succeeded(s.proc.token, s.proc.after, s.proc.beat)) else s
    case Inspect => if s.proc.Failing? then StepInspect(s) else s
    case Pause(_, _, _) => if s.proc.Pausing? then StepPause(expected, s, e) else s
  }

  function Start(first: Row): State {
    State([Entry(first, Operator)], Fresh, None, None, None, false, None)
  }

  function Run(expected: string, first: Row, es: seq<Event>): (s: State)
    ensures s.history != []
  {
    if es == [] then Start(first)
    else Apply(expected, Run(expected, first, es[..|es| - 1]), es[|es| - 1])
  }

  // ----- The invariant -----

  /** The one place where the procedure enabled delivery: it replaced the row it had observed. */
  predicate EnableOk(h: seq<Entry>, i: nat, observed: Row, expected: string) {
    && 0 < i < |h| && h[i].author == Recovery
    && h[i - 1].row == observed && observed.commit == expected && !observed.wechat && !observed.delivery
    && h[i].row == Mutated(observed, true, h[i].row.updatedAt)
  }

  /** The one place where it paused: directly after, and only over, its own enable. */
  predicate PauseOk(h: seq<Entry>, i: nat, j: nat) {
    && 0 < i && j == i + 1 < |h| && h[j].author == Recovery
    && h[j].row == Mutated(h[i].row, false, h[j].row.updatedAt)
  }

  /** The token names the procedure's own enable, which it has not paused yet. */
  predicate Owns(s: State, token: int) {
    && s.pause.None? && s.answered && s.enable.Some? && s.enable.value < |s.history|
    && s.history[s.enable.value].row.updatedAt == token
  }

  /** The enable was seen in force, with a consumer heartbeat younger than it. */
  predicate Confirmed(s: State, expected: string, token: int, after: Row, beat: Heartbeat)
    requires Owns(s, token)
  {
    s.history[s.enable.value].row == after && FreshHeartbeat(beat, expected, token, true)
  }

  /** Nothing written yet; `before` is the row of the first snapshot. */
  predicate Watching(s: State, before: Row) {
    && s.enable.None? && s.pause.None? && !s.answered
    && s.observed.Some? && s.observed.value.row == before && Held(s.history, before)
  }

  /** The standby heartbeat was fresh with respect to the first snapshot. */
  predicate Standby(s: State, expected: string) {
    && s.observed.Some? && s.standby.Some?
    && FreshHeartbeat(s.standby.value, expected, s.observed.value.generated, false)
  }

  predicate ProcOk(s: State, expected: string) {
    match s.proc
    case Fresh => s.enable.None? && s.pause.None? && !s.answered
    case Observed(before, generated) => Watching(s, before) && s.observed.value.generated == generated
    case Ready(before) => Watching(s, before) && Standby(s, expected)
    case Enabled(_, token) => Owns(s, token)
    case Verified(_, token, after, beat) => Owns(s, token) && Confirmed(s, expected, token, after, beat)
    case Succeeded(token, after, beat) => Owns(s, token) && Confirmed(s, expected, token, after, beat)
    case Failing(_, Some(token)) => Owns(s, token)
    case Failing(_, None) => s.pause.None? && !s.answered
    case Pausing(token) => Owns(s, token)
    case Ended => true
  }

  predicate Inv(s: State, expected: string) {
    && s.history != [] && Increasing(s.history)
    && (s.enable.Some? ==>
          Standby(s, expected) && EnableOk(s.history, s.enable.value, s.observed.value.row, expected))
    && (s.pause.Some? ==> s.enable.Some? && s.answered && PauseOk(s.history, s.enable.value, s.pause.value))
    && (forall k :: 0 <= k < |s.history| && s.history[k].author == Recovery ==>
          s.enable == Some(k) || s.pause == Some(k))
    && ProcOk(s, expected)
  }

  /** The procedure moves on without a write. */
  lemma KeepProc(expected: string, s: State, proc: Procedure)
    requires Inv(s, expected) && ProcOk(s.(proc := proc), expected)
    ensures Inv(s.(proc := proc), expected)
  {}

  /** The enable finds the observed row still live, since no other row has its stamp. */
  lemma ObservedIsLive(s: State, expected: string)
    requires Inv(s, expected) && s.proc.Ready? && Current(s).updatedAt == s.proc.before.updatedAt
    ensures Current(s) == s.proc.before == s.observed.value.row
  {
    var k :| 0 <= k < |s.history| && s.history[k].row == s.proc.before;
    SameStampSameRow(s.history, k, |s.history| - 1);
  }

  lemma KeepEnable(expected: string, s: State, e: Event)
    requires Inv(s, expected) && s.proc.Ready? && e.Enable?
    ensures Inv(StepEnable(expected, s, e), expected)
  {
    var s' := StepEnable(expected, s, e);
    if s'.history == s.history {
      KeepProc(expected, s, s'.proc);
    } else {
      ObservedIsLive(s, expected);
    }
  }

  lemma KeepPause(expected: string, s: State, e: Event)
    requires Inv(s, expected) && s.proc.Pausing? && e.Pause?
    ensures Inv(StepPause(expected, s, e), expected)
  {
    if Current(s).updatedAt == s.proc.token {
      SameStampSameRow(s.history, s.enable.value, |s.history| - 1);
    }
  }

  lemma KeepOperator(expected: string, s: State, e: Event)
    requires Inv(s, expected) && e.OperatorWrites?
    ensures Inv(Apply(expected, s, e), expected)
  {
    var s' := Apply(expected, s, e);
    forall row | Held(s.history, row) ensures Held(s'.history, row) {
      var i :| 0 <= i < |s.history| && s.history[i].row == row;
      assert s'.history[i].row == row;
    }
  }

  lemma KeepWait(expected: string, s: State, e: Event)
    requires Inv(s, expected) && (e.Observe? || e.WaitShadow? || e.WaitActive?)
    ensures Inv(Apply(expected, s, e), expected)
  {
    assert Held(s.history, Current(s));
    if s.proc.Enabled? && Current(s).updatedAt == s.proc.token {
      SameStampSameRow(s.history, s.enable.value, |s.history| - 1);
    }
  }

  lemma KeepQuiet(expected: string, s: State, e: Event)
    requires Inv(s, expected) && (e.Raise? || e.Succeed? || e.Inspect?)
    ensures Inv(Apply(expected, s, e), expected)
  {
    var proc := Apply(expected, s, e).proc;
    assert Apply(expected, s, e) == s.(proc := proc);
    KeepProc(expected, s, proc);
  }

  lemma {:induction false} RunInv(expected: string, first: Row, es: seq<Event>)
    ensures Inv(Run(expected, first, es), expected)
  {
    if es != [] {
      RunInv(expected, first, es[..|es| - 1]);
      var s, e := Run(expected, first, es[..|es| - 1]), es[|es| - 1];
      if e.OperatorWrites? { KeepOperator(expected, s, e); }
      else if e.Enable? { if s.proc.Ready? { KeepEnable(expected, s, e); } }
      else if e.Pause? { if s.proc.Pausing? { KeepPause(expected, s, e); } }
      else if e.Observe? || e.WaitShadow? || e.WaitActive? { KeepWait(expected, s, e); }
      else { KeepQuiet(expected, s, e); }
    }
  }

  // ----- Main results -----

  /** In every interleaving the procedure writes at most twice: one enable that replaces exactly
      the row of its first snapshot, and one pause that directly replaces exactly that enable. So
      it never overwrites or undoes another operator's row, and it never changes the commit, the
      WeChat gate or the activation time. */
  lemma NeverOverwritesOthers(expected: string, first: Row, es: seq<Event>, k: nat)
    requires k < |Run(expected, first, es).history| && Run(expected, first, es).history[k].author == Recovery
    ensures var s := Run(expected, first, es); var h := s.history;
      && k > 0 && (s.enable == Some(k) || s.pause == Some(k))
      && h[k].row.commit == h[k - 1].row.commit == expected
      && h[k].row.wechat == h[k - 1].row.wechat == false
      && h[k].row.activatedAt == h[k - 1].row.activatedAt
      && (s.enable == Some(k) ==>
            s.observed.Some? && s.observed.value.row == h[k - 1].row && !h[k - 1].row.delivery && h[k].row.delivery)
      && (s.pause == Some(k) ==>
            s.answered && s.enable == Some(k - 1) && h[k - 1].author == Recovery && !h[k].row.delivery)
  {
    RunInv(expected, first, es);
  }

  /** Delivery is enabled only after a standby consumer of the expected commit has shown itself
      since the first snapshot, less than two minutes before it was read. */
  lemma EnabledAfterStandby(expected: string, first: Row, es: seq<Event>)
    requires Run(expected, first, es).enable.Some?
    ensures var s := Run(expected, first, es);
      && s.observed.Some? && s.standby.Some?
      && var b := s.standby.value;
         && b.healthy && b.commit == expected && !b.owner && b.mode == "shadow"
         && b.at > s.observed.value.generated && 0 <= b.generated - b.at < 120
  {
    RunInv(expected, first, es);
  }

  /** A reported success was seen on the procedure's own enable, which it has not paused, with a
      heartbeat that is younger than it; whatever others have written since. */
  lemma SuccessIsOwnActivation(expected: string, first: Row, es: seq<Event>)
    requires Run(expected, first, es).proc.Succeeded?
    ensures var s := Run(expected, first, es); var b := s.proc.beat;
      && s.enable.Some? && s.pause.None? && s.enable.value < |s.history|
      && s.history[s.enable.value] == Entry(s.proc.after, Recovery) && s.proc.after.delivery
      && b.healthy && b.commit == expected && b.owner && b.mode == "active"
      && b.at > s.proc.after.updatedAt && 0 <= b.generated - b.at < 120
  {
    RunInv(expected, first, es);
  }

  /** The rollback pauses delivery exactly when the reply to the procedure's enable arrived and that
      enable is still the live row; otherwise it writes nothing. */
  lemma RollbackExact(expected: string, first: Row, es: seq<Event>, checks: Checkpoints, later: nat)
    requires Run(expected, first, es).proc.Failing? && checks.container == expected && checks.schema
    ensures var s := Run(expected, first, es);
            var t := Apply(expected, Apply(expected, s, Inspect), Pause(checks, Done, later));
            if s.answered && s.enable == Some(|s.history| - 1) then
              && |t.history| == |s.history| + 1 && t.history[..|s.history|] == s.history
              && t.pause == Some(|s.history|) && !Current(t).delivery && !Current(t).wechat
              && Current(t).commit == expected && Current(t).phase == Paused
            else t.history == s.history
  {
    var s := Run(expected, first, es);
    RunInv(expected, first, es);
    if s.proc.enabled.Some? && Current(s).updatedAt == s.proc.enabled.value {
      SameStampSameRow(s.history, s.enable.value, |s.history| - 1);
    }
  }

  ghost predicate Reachable(expected: string, first: Row, s: State) {
    exists es :: Run(expected, first, es) == s
  }

  lemma StepTo(expected: string, first: Row, s: State, e: Event, s': State)
    requires s.history != [] && Reachable(expected, first, s) && Apply(expected, s, e) == s'
    ensures Reachable(expected, first, s')
  {
    var es :| Run(expected, first, es) == s;
    assert (es + [e])[..|es|] == es;
    assert Run(expected, first, es + [e]) == s';
  }

  const STANDBY_AT := 1

  function ReadyOn(expected: string, first: Row): State {
    State([Entry(first, Operator)], Ready(first), Some(Snapshot(first, 0)),
          Some(Heartbeat(true, expected, false, "shadow", STANDBY_AT, STANDBY_AT)), None, false, None)
  }

  function EnabledOn(expected: string, first: Row, proc: Procedure): State {
    ReadyOn(expected, first).(
      history := [Entry(first, Operator), Entry(Mutated(first, true, first.updatedAt + 1), Recovery)],
      proc := proc, enable := Some(1), answered := true)
  }

  lemma ReadyReaches(expected: string, first: Row)
    requires first.commit == expected && !first.wechat && first.activatedAt.Some? && !first.delivery
    ensures Reachable(expected, first, ReadyOn(expected, first))
  {
    assert Run(expected, first, []) == Start(first);
    var a := Start(first).(proc := Observed(first, 0), observed := Some(Snapshot(first, 0)));
    StepTo(expected, first, Start(first), Observe(0), a);
    var beat := Heartbeat(true, expected, false, "shadow", STANDBY_AT, STANDBY_AT);
    StepTo(expected, first, a, WaitShadow(beat), ReadyOn(expected, first));
  }

  lemma EnableReaches(expected: string, first: Row, checks: Checkpoints)
    requires MayMutate(first, checks, expected, true, first.updatedAt)
    ensures Reachable(expected, first, EnabledOn(expected, first, Enabled(first, first.updatedAt + 1)))
  {
    ReadyReaches(expected, first);
    StepTo(expected, first, ReadyOn(expected, first), Enable(checks, Done, 0),
           EnabledOn(expected, first, Enabled(first, first.updatedAt + 1)));
  }

  /** Undisturbed, from any row and checkpoints that allow it, the procedure does activate delivery. */
  lemma UndisturbedActivates(expected: string, first: Row, checks: Checkpoints) returns (s: State)
    requires MayMutate(first, checks, expected, true, first.updatedAt)
    ensures Reachable(expected, first, s) && s.proc.Succeeded?
    ensures s.history == [Entry(first, Operator), Entry(first.(delivery := true, phase := Active,
                                                               updatedAt := first.updatedAt + 1), Recovery)]
  {
    EnableReaches(expected, first, checks);
    var token := first.updatedAt + 1;
    var after := Mutated(first, true, token);
    var beat := Heartbeat(true, expected, true, "active", token + 1, token + 1);
    var d := EnabledOn(expected, first, Verified(first, token, after, beat));
    StepTo(expected, first, EnabledOn(expected, first, Enabled(first, token)), WaitActive(beat), d);
    s := EnabledOn(expected, first, Succeeded(token, after, beat));
    StepTo(expected, first, d, Succeed, s);
  }

  lemma PausingReaches(expected: string, first: Row, checks: Checkpoints)
    requires MayMutate(first, checks, expected, true, first.updatedAt)
    ensures Reachable(expected, first, EnabledOn(expected, first, Pausing(first.updatedAt + 1)))
  {
    EnableReaches(expected, first, checks);
    var token := first.updatedAt + 1;
    var a := EnabledOn(expected, first, Failing(first, Some(token)));
    StepTo(expected, first, EnabledOn(expected, first, Enabled(first, token)), Raise, a);
    StepTo(expected, first, a, Inspect, EnabledOn(expected, first, Pausing(token)));
  }

  /** When the consumer never shows itself, the procedure takes its own enable back. */
  lemma FailureIsPaused(expected: string, first: Row, checks: Checkpoints) returns (s: State)
    requires MayMutate(first, checks, expected, true, first.updatedAt)
    ensures Reachable(expected, first, s) && s.proc.Ended?
    ensures |s.history| == 3 && s.history[1].row.delivery && s.history[2].author == Recovery
    ensures s.history[2].row == first.(delivery := false, phase := Paused, updatedAt := first.updatedAt + 2)
  {
    PausingReaches(expected, first, checks);
    var b := EnabledOn(expected, first, Pausing(first.updatedAt + 1));
    s := Apply(expected, b, Pause(checks, Done, 0));
    StepTo(expected, first, b, Pause(checks, Done, 0), s);
  }
}
