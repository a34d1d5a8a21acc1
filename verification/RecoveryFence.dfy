/** The recovery upgrade (scripts/host_core_production.py): a baseline of the control row is
    captured once; the fence closes delivery by compare-and-swap on it; a source-only undo checks
    the same baseline and then moves the checkout back. Any number of operator sessions run these
    commands at the same time, next to arbitrary other writers. */
module RecoveryFence {
  import opened Effects
  import opened ControlRow

  type Session = nat

  /** The two commits of one recovery upgrade. */
  datatype Upgrade = Upgrade(source: string, target: string)

  /** `restoring` holds the sessions between the baseline check of `restore_recovery_source` and
      its checkout; `reverts` records, for each such checkout, whether the live row was still the
      baseline at that moment. */
  datatype State = State(history: seq<Entry>, head: string, baseline: Option<Row>,
                         restoring: set<Session>, reverts: seq<bool>)

  datatype Event =
    | OtherWrites(commit: string, delivery: bool, wechat: bool, activatedAt: Option<int>, phase: Phase, later: nat)
    | Capture(checks: Checkpoints)
    | PrepareSource(checks: Checkpoints)
    | Fence(checks: Checkpoints, outcome: Outcome, later: nat)
    | VerifyRestore(w: Session, checks: Checkpoints)
    | CheckoutSource(w: Session)

  function Current(s: State): Row
    requires s.history != []
  {
    s.history[|s.history| - 1].row
  }

  /** `_verify_recovery_baseline`: the probe's own guards, and the very same control row. */
  predicate BaselineLive(u: Upgrade, s: State, checks: Checkpoints)
    requires s.history != []
  {
    && s.baseline.Some? && Current(s) == s.baseline.value
    && MayFence(Current(s), checks, u.source, s.baseline.value.updatedAt)
  }

  /** One event; an event that is not possible in `s` changes nothing. */
  function Apply(u: Upgrade, s: State, e: Event): State
    requires s.history != []
  {
    var row := Current(s);
    match e
    case OtherWrites(commit, delivery, wechat, activatedAt, phase, later) =>
      var written := Row(commit, delivery, wechat, activatedAt, row.updatedAt + 1 + later, phase);
      s.(history := s.history + [Entry(written, Operator)])
    case Capture(checks) =>
      if s.baseline.None? && u.target != u.source && s.head == u.source
         && MayFence(row, checks, u.source, row.updatedAt)
      then s.(baseline := Some(row)) else s
    case PrepareSource(checks) =>
      if s.head == u.source && BaselineLive(u, s, checks) then s.(head := u.target) else s
    case Fence(checks, outcome, later) =>
      if s.baseline.Some? && outcome.Happened() && MayFence(row, checks, u.source, s.baseline.value.updatedAt)
      then s.(history := s.history + [Entry(Fenced(row, u.target, row.updatedAt + 1 + later), Fencing)]) else s
    case VerifyRestore(w, checks) =>
      if w !in s.restoring && s.head == u.target && BaselineLive(u, s, checks)
      then s.(restoring := s.restoring + {w}) else s
    case CheckoutSource(w) =>
      if w in s.restoring
      then s.(head := u.source, restoring := s.restoring - {w}, reverts := s.reverts + [s.baseline == Some(row)]) else s
  }

  function RunFrom(u: Upgrade, s: State, es: seq<Event>): (r: State)
    requires s.history != []
    ensures r.history != []
  {
    if es == [] then s else Apply(u, RunFrom(u, s, es[..|es| - 1]), es[|es| - 1])
  }

  function Run(u: Upgrade, first: Row, es: seq<Event>): (r: State)
    ensures r.history != []
  {
    RunFrom(u, State([Entry(first, Operator)], u.source, None, {}, []), es)
  }

  // ----- The invariant -----

  /** Every fence replaced exactly the captured baseline. */
  predicate FenceOk(s: State, u: Upgrade, k: nat)
    requires k < |s.history|
  {
    && 0 < k && s.baseline == Some(s.history[k - 1].row)
    && s.history[k].row == Fenced(s.history[k - 1].row, u.target, s.history[k].row.updatedAt)
  }

  predicate Inv(s: State, u: Upgrade) {
    && s.history != [] && Increasing(s.history)
    && (s.baseline.Some? ==> Held(s.history, s.baseline.value) && u.source != u.target)
    && (s.restoring != {} ==> s.baseline.Some?)
    && (forall k :: 0 <= k < |s.history| && s.history[k].author == Fencing ==> FenceOk(s, u, k))
  }

  lemma KeepFence(u: Upgrade, s: State, e: Event)
    requires Inv(s, u) && e.Fence?
    ensures Inv(Apply(u, s, e), u)
  {
    var s' := Apply(u, s, e);
    if s' != s {
      var i :| 0 <= i < |s.history| && s.history[i].row == s.baseline.value;
      SameStampSameRow(s.history, i, |s.history| - 1);
      assert s'.history[i].row == s.baseline.value;
    }
  }

  lemma Keep(u: Upgrade, s: State, e: Event)
    requires Inv(s, u)
    ensures Inv(Apply(u, s, e), u)
  {
    if e.Fence? {
      KeepFence(u, s, e);
    } else {
      var s' := Apply(u, s, e);
      if s.baseline.Some? {
        var i :| 0 <= i < |s.history| && s.history[i].row == s.baseline.value;
        assert s'.history[i].row == s.baseline.value;
      } else {
        assert Held(s.history, Current(s));
      }
      forall k | 0 <= k < |s'.history| && s'.history[k].author == Fencing ensures FenceOk(s', u, k) {
        assert FenceOk(s, u, k);
      }
    }
  }

  lemma {:induction false} RunInv(u: Upgrade, s: State, es: seq<Event>)
    requires Inv(s, u)
    ensures Inv(RunFrom(u, s, es), u)
  {
    if es != [] {
      RunInv(u, s, es[..|es| - 1]);
      Keep(u, RunFrom(u, s, es[..|es| - 1]), es[|es| - 1]);
    }
  }

  // ----- Main results -----

  /** From one captured baseline the fence commits at most once, in any interleaving of any
      number of sessions, and it replaces exactly the baseline. */
  lemma FenceOnce(u: Upgrade, first: Row, es: seq<Event>, i: nat, j: nat)
    requires var h := Run(u, first, es).history; i < |h| && j < |h| && h[i].author == Fencing && h[j].author == Fencing
    ensures i == j
    ensures i > 0 && Run(u, first, es).baseline == Some(Run(u, first, es).history[i - 1].row)
  {
    var s := Run(u, first, es);
    RunInv(u, State([Entry(first, Operator)], u.source, None, {}, []), es);
    assert FenceOk(s, u, i) && FenceOk(s, u, j);
    SameStampSameRow(s.history, i - 1, j - 1);
  }

  /** A fence closes both gates, and they stay closed under the target commit until somebody else
      writes the row: no command of the upgrade opens them again. */
  lemma FencedStaysClosed(u: Upgrade, first: Row, es: seq<Event>, k: nat, n: nat)
    requires var h := Run(u, first, es).history;
             k <= n < |h| && h[k].author == Fencing && forall i :: k < i <= n ==> h[i].author != Operator
    ensures var h := Run(u, first, es).history; var row := h[n].row;
      && n == k && k > 0 && !row.delivery && !row.wechat && row.commit == u.target && row.phase == Prepared
      && row.activatedAt == h[k - 1].row.activatedAt
  {
    var s := Run(u, first, es);
    RunInv(u, State([Entry(first, Operator)], u.source, None, {}, []), es);
    assert FenceOk(s, u, k);
    if n > k {
      OnlyTwoAuthors(u, State([Entry(first, Operator)], u.source, None, {}, []), es);
      assert s.history[n] in s.history;
      FenceOnce(u, first, es, k, n);
    }
  }

  predicate TwoAuthors(h: seq<Entry>) {
    forall e :: e in h ==> e.author == Fencing || e.author == Operator
  }

  lemma StepTwoAuthors(u: Upgrade, s: State, e: Event)
    requires s.history != [] && TwoAuthors(s.history)
    ensures TwoAuthors(Apply(u, s, e).history)
  {}

  /** In the upgrade the row is written by fences and by others; by nothing else. */
  lemma {:induction false} OnlyTwoAuthors(u: Upgrade, s: State, es: seq<Event>)
    requires s.history != [] && TwoAuthors(s.history)
    ensures TwoAuthors(RunFrom(u, s, es).history)
  {
    if es != [] {
      OnlyTwoAuthors(u, s, es[..|es| - 1]);
      StepTwoAuthors(u, RunFrom(u, s, es[..|es| - 1]), es[|es| - 1]);
    }
  }

  /** After a fence has committed, nothing that anyone does makes another fence, a source
      preparation or the check of a source undo pass again. */
  lemma FencedRefuses(u: Upgrade, first: Row, es: seq<Event>, k: nat, e: Event)
    requires k < |Run(u, first, es).history| && Run(u, first, es).history[k].author == Fencing
    requires e.Fence? || e.VerifyRestore? || e.PrepareSource?
    ensures Apply(u, Run(u, first, es), e) == Run(u, first, es)
  {
    var s := Run(u, first, es);
    RunInv(u, State([Entry(first, Operator)], u.source, None, {}, []), es);
    assert FenceOk(s, u, k);
    assert Current(s).updatedAt > s.baseline.value.updatedAt;
  }

  lemma {:induction false} HistoryGrows(u: Upgrade, s: State, es: seq<Event>)
    requires Inv(s, u) && s.baseline.Some?
    ensures s.history <= RunFrom(u, s, es).history && RunFrom(u, s, es).baseline == s.baseline
  {
    if es != [] { HistoryGrows(u, s, es[..|es| - 1]); }
  }

  // ----- From the check of an undo to its checkout -----

  /** The event writes the control row while that row is still the baseline. */
  predicate Writes(u: Upgrade, baseline: Row, e: Event) {
    || e.OtherWrites?
    || (e.Fence? && e.outcome.Happened() && MayFence(baseline, e.checks, u.source, baseline.updatedAt))
  }

  ghost predicate Quiet(u: Upgrade, baseline: Row, es: seq<Event>) {
    forall e :: e in es ==> !Writes(u, baseline, e)
  }

  lemma QuietSnoc(u: Upgrade, baseline: Row, es: seq<Event>)
    requires es != []
    ensures Quiet(u, baseline, es) <==>
            Quiet(u, baseline, es[..|es| - 1]) && !Writes(u, baseline, es[|es| - 1])
  {
    assert es == es[..|es| - 1] + [es[|es| - 1]];
  }

  /** Starting on the live baseline, the row is untouched exactly if no event is a write. */
  lemma {:induction false} UntouchedIffQuiet(u: Upgrade, s: State, es: seq<Event>)
    requires Inv(s, u) && s.baseline == Some(Current(s))
    ensures RunFrom(u, s, es).history == s.history <==> Quiet(u, s.baseline.value, es)
  {
    if es != [] {
      var front := es[..|es| - 1];
      UntouchedIffQuiet(u, s, front);
      HistoryGrows(u, s, front);
      QuietSnoc(u, s.baseline.value, es);
    }
  }

  /** With unique stamps the row is still the baseline exactly if nothing was appended. */
  lemma LiveIffUntouched(u: Upgrade, s: State, es: seq<Event>)
    requires Inv(s, u) && s.baseline == Some(Current(s))
    ensures var t := RunFrom(u, s, es); t.baseline == Some(Current(t)) <==> t.history == s.history
  {
    RunInv(u, s, es);
    HistoryGrows(u, s, es);
    var t := RunFrom(u, s, es);
    assert s.baseline.value == t.history[|s.history| - 1].row;
    if t.baseline == Some(Current(t)) {
      SameStampSameRow(t.history, |s.history| - 1, |t.history| - 1);
    }
  }

  lemma {:induction false} StillRestoring(u: Upgrade, s: State, es: seq<Event>, w: Session)
    requires s.history != [] && w in s.restoring && CheckoutSource(w) !in es
    ensures w in RunFrom(u, s, es).restoring
  {
    if es != [] { StillRestoring(u, s, es[..|es| - 1], w); }
  }

  /** The checkout of a checked undo moves the source back, and does so over the live baseline
      exactly if none of the events since the check was another operator's write or a fence that
      took effect with passing checks. */
  lemma RevertSafeIff(u: Upgrade, first: Row, es: seq<Event>, w: Session, checks: Checkpoints, between: seq<Event>)
    requires var s := Run(u, first, es); w !in s.restoring && w in Apply(u, s, VerifyRestore(w, checks)).restoring
    requires CheckoutSource(w) !in between
    ensures var s := Apply(u, Run(u, first, es), VerifyRestore(w, checks));
            var t := RunFrom(u, s, between);
            var t' := Apply(u, t, CheckoutSource(w));
            && s.baseline.Some? && t'.head == u.source
            && t'.reverts == t.reverts + [Quiet(u, s.baseline.value, between)]
  {
    RunInv(u, State([Entry(first, Operator)], u.source, None, {}, []), es);
    var s := Apply(u, Run(u, first, es), VerifyRestore(w, checks));
    Keep(u, Run(u, first, es), VerifyRestore(w, checks));
    StillRestoring(u, s, between, w);
    LiveIffUntouched(u, s, between);
    UntouchedIffQuiet(u, s, between);
  }

  // ----- The gap is real -----

  ghost predicate Reachable(u: Upgrade, first: Row, s: State) {
    exists es :: Run(u, first, es) == s
  }

  lemma StepTo(u: Upgrade, first: Row, s: State, e: Event, s': State)
    requires s.history != [] && Reachable(u, first, s) && Apply(u, s, e) == s'
    ensures Reachable(u, first, s')
  {
    var es :| Run(u, first, es) == s;
    assert (es + [e])[..|es|] == es;
    assert Run(u, first, es + [e]) == s';
  }

  function CheckedOut(u: Upgrade, first: Row, restoring: set<Session>): State {
    State([Entry(first, Operator)], u.target, Some(first), restoring, [])
  }

  lemma PreparedReaches(u: Upgrade, first: Row, checks: Checkpoints)
    requires u.source != u.target && MayFence(first, checks, u.source, first.updatedAt)
    ensures Reachable(u, first, CheckedOut(u, first, {}))
  {
    var start := State([Entry(first, Operator)], u.source, None, {}, []);
    assert Run(u, first, []) == start;
    var a := start.(baseline := Some(first));
    StepTo(u, first, start, Capture(checks), a);
    StepTo(u, first, a, PrepareSource(checks), CheckedOut(u, first, {}));
  }

  lemma CheckReaches(u: Upgrade, first: Row, checks: Checkpoints)
    requires u.source != u.target && MayFence(first, checks, u.source, first.updatedAt)
    ensures Reachable(u, first, CheckedOut(u, first, {1}))
  {
    PreparedReaches(u, first, checks);
    assert CheckedOut(u, first, {1}).restoring == {} + {1};
    StepTo(u, first, CheckedOut(u, first, {}), VerifyRestore(1, checks), CheckedOut(u, first, {1}));
  }

  /** Check and checkout are two steps: another session's fence can commit in between, and the
      source is then moved back under a runtime that has already been fenced. */
  lemma FenceBetweenCheckAndCheckout(u: Upgrade, first: Row, checks: Checkpoints) returns (s: State)
    requires u.source != u.target && MayFence(first, checks, u.source, first.updatedAt)
    ensures Reachable(u, first, s) && s.reverts == [false] && s.head == u.source
    ensures s.history != [] && s.history[|s.history| - 1].author == Fencing
  {
    CheckReaches(u, first, checks);
    var c := CheckedOut(u, first, {1});
    var d := Apply(u, c, Fence(checks, Done, 0));
    StepTo(u, first, c, Fence(checks, Done, 0), d);
    s := Apply(u, d, CheckoutSource(1));
    StepTo(u, first, d, CheckoutSource(1), s);
  }
}
