/** The fence between the DAG guard, the runner and the Pi: every interleaving of the three
    machines, with lost messages and real time. Time is the guard host's clock; the Pi's clock
    is off by a fixed amount (scripts/pi_ydmap_dag_guard.py, scripts/deploy_pi_ydmap.py,
    pi_host/dsh_ydmap/install.py). */
module Fence {
  import opened Effects
  import DagGuard

  const LEASE: real := DagGuard.HOLD_SECONDS as real
  const PROOF_LIFE := DagGuard.HOLD_SECONDS - DagGuard.PROOF_MARGIN_SECONDS
  const SKEW: real := 30.0
  const ACTIVATION: real := 540.0
  const ROLLBACK: real := 150.0
  const RESERVE: real := ACTIVATION + ROLLBACK + 60.0
  const IDLE_RESERVE: real := 250.0  // what the reserving check keeps for `wait_idle`
  const IDLE_LIMIT: real := 240.0    // the deadline `wait_idle` sets itself

  /** Fixed but unknown circumstances. `offset` is Pi clock minus guard clock. `gap` bounds the
      guard's two clock reads, `delay` the way of the proof to the first check on the Pi,
      `overrun` what the last poll of `wait_idle` and the moments around it add to its deadline,
      and `slack` the untimed moments between the last check and the rollback timer. */
  datatype Env = Env(offset: real, gap: real, delay: real, overrun: real, slack: real)

  /** How long after the first check the last one can still pass: its own reserve bounds it, and
      so does the reserving check before it together with the deadline of `wait_idle`. */
  function LatestEntry(overrun: real): real {
    var left := PROOF_LIFE as real + SKEW - RESERVE;
    Min(left, left - IDLE_RESERVE + IDLE_LIMIT + overrun)
  }

  /** What the constants leave over for gap, delay and slack together. */
  function Slack(overrun: real): real {
    LEASE - LatestEntry(overrun) - ACTIVATION - ROLLBACK
  }

  /** The clock part of `validate_drain_proof`, with its three reads of the Pi clock. */
  predicate Accepts(issued: int, remaining: real, read1: real, read2: real, read3: real) {
    && issued as real <= read1 + SKEW
    && read2 + remaining < (issued + PROOF_LIFE) as real <= read3 + LEASE
  }

  /** `read` is when the hold deadline was computed. */
  datatype Guard = Draining | Holding(read: real) | Lifted(read: real, at: real, acknowledged: bool)

  /** The proof: read of the hold clock, read of the wall clock, and its whole seconds. */
  datatype Proof = Proof(read: real, wall: real, issuedAt: int)

  /** `Closed(released)` tells whether the release line was written before the pipe was closed. */
  datatype Runner = Waiting | Accepted | Commanded | Closed(released: bool)

  /** `first` and `last` are the guard-clock times of the first skew check and the last lease
      check, `at` that of the check before a `wait_idle`. The proof is checked before and after
      the first `wait_idle`, after the candidate was prepared and inspected (which has no
      deadline), and before and after the second `wait_idle`. */
  datatype Pi =
    | NotStarted
    | Started
    | Checked(first: real, at: real)
    | Settled(first: real)
    | Prepared(first: real)
    | Reserved(first: real, at: real)
    | Entering(last: real)
    | Active(last: real, since: real)
    | Restoring(last: real, since: real)
    | Ended(reported: bool)

  /** `arriving` and `report` are messages on the way; `breached` records a live change made
      after the pause was lifted. */
  datatype State = State(now: real, guard: Guard, runner: Runner, pi: Pi, proof: Option<Proof>,
                         arriving: bool, report: bool, changes: nat, breached: bool)

  datatype Event =
    | Tick(seconds: real)
    | GuardReadsClock
    | GuardIssues
    | GuardHears
    | GuardDeadline
    | ProofLost
    | RunnerAccepts
    | RunnerGivesUp
    | RunnerCommands
    | RunnerHears
    | RunnerLosesPi
    | ReportLost
    | PiFirstCheck(a: real, b: real)
    | PiSettles(a: real, b: real)
    | PiPrepares(a: real, b: real)
    | PiReserves(a: real, b: real)
    | PiLastCheck(a: real, b: real)
    | PiActivates
    | PiChanges
    | PiRollsBack
    | PiEnds(reported: bool)

  const INITIAL := State(0.0, Draining, Waiting, NotStarted, None, false, false, 0, false)

  predicate Passes(env: Env, s: State, remaining: real, a: real, b: real) {
    && s.proof.Some? && 0.0 <= a && 0.0 <= b
    && var p := s.now + env.offset;
       Accepts(s.proof.value.issuedAt, remaining, p, p + a, p + a + b)
  }

  /** `wait_idle` ran between the checks at `before` and `after` and kept its deadline. */
  predicate InTime(env: Env, before: real, after: real) {
    after <= before + IDLE_LIMIT + env.overrun
  }

  /** One event; an event that is not possible in `s` changes nothing. `PiChanges` is any step of
      the activation or the rollback, which run under deadlines of their own. A check that fails ends
      the Pi command, which is covered by `PiEnds`. */
  function Apply(env: Env, s: State, e: Event): State {
    match e
    case Tick(t) => if t > 0.0 then s.(now := s.now + t) else s
    // guard
    case GuardReadsClock => if s.guard.Draining? then s.(guard := Holding(s.now)) else s
    case GuardIssues =>
      if s.guard.Holding? && s.proof.None? && s.now <= s.guard.read + env.gap
      then s.(proof := Some(Proof(s.guard.read, s.now, s.now.Floor)), arriving := true) else s
    case GuardHears =>
      if s.guard.Holding? && s.proof.Some? && s.runner == Closed(true)
      then s.(guard := Lifted(s.guard.read, s.now, true)) else s
    case GuardDeadline =>
      if s.guard.Holding? && s.now >= s.guard.read + LEASE
      then s.(guard := Lifted(s.guard.read, s.now, false)) else s
    // runner
    case ProofLost => s.(arriving := false)
    case RunnerAccepts =>
      if s.runner.Waiting? && s.arriving then s.(runner := Accepted, arriving := false) else s
    case RunnerGivesUp => if s.runner.Waiting? then s.(runner := Closed(true)) else s
    case RunnerCommands =>
      if s.runner.Accepted? then s.(runner := Commanded, pi := Started) else s
    case RunnerHears => if s.runner.Commanded? && s.report then s.(runner := Closed(true), report := false) else s
    case RunnerLosesPi =>
      if s.runner.Accepted? || s.runner.Commanded? then s.(runner := Closed(false)) else s
    case ReportLost => s.(report := false)
    // Pi
    case PiFirstCheck(a, b) =>
      if s.pi.Started? && Passes(env, s, SKEW, a, b) && s.now <= s.proof.value.wall + env.delay
      then s.(pi := Checked(s.now, s.now + a), now := s.now + a + b) else s
    case PiSettles(a, b) =>
      if s.pi.Checked? && Passes(env, s, SKEW, a, b) && InTime(env, s.pi.at, s.now + a)
      then s.(pi := Settled(s.pi.first), now := s.now + a + b) else s
    case PiPrepares(a, b) =>
      if s.pi.Settled? && Passes(env, s, SKEW, a, b)
      then s.(pi := Prepared(s.pi.first), now := s.now + a + b) else s
    case PiReserves(a, b) =>
      if s.pi.Prepared? && Passes(env, s, RESERVE + IDLE_RESERVE, a, b)
      then s.(pi := Reserved(s.pi.first, s.now + a), now := s.now + a + b) else s
    case PiLastCheck(a, b) =>
      if s.pi.Reserved? && Passes(env, s, RESERVE, a, b) && InTime(env, s.pi.at, s.now + a)
      then s.(pi := Entering(s.now + a), now := s.now + a + b) else s
    case PiActivates =>
      if s.pi.Entering? && s.now <= s.pi.last + env.slack then s.(pi := Active(s.pi.last, s.now)) else s
    case PiChanges =>
      if (s.pi.Active? && s.now <= s.pi.since + ACTIVATION) || (s.pi.Restoring? && s.now <= s.pi.since + ROLLBACK)
      then s.(changes := s.changes + 1, breached := s.breached || s.guard.Lifted?) else s
    case PiRollsBack =>
      if s.pi.Active? && s.now <= s.pi.last + env.slack + ACTIVATION then s.(pi := Restoring(s.pi.last, s.now)) else s
    case PiEnds(reported) =>
      if !s.pi.NotStarted? && !s.pi.Ended? then s.(pi := Ended(reported), report := reported) else s
  }

  function Run(env: Env, es: seq<Event>): State {
    if es == [] then INITIAL else Apply(env, Run(env, es[..|es| - 1]), es[|es| - 1])
  }

  // ----- The invariant -----

  predicate Sensible(env: Env) {
    0.0 <= env.gap && 0.0 <= env.delay && 0.0 <= env.overrun && 0.0 <= env.slack
  }

  predicate Within(env: Env) {
    env.gap + env.delay + env.slack <= Slack(env.overrun)
  }

  /** Who may still be doing what. */
  predicate Roles(s: State) {
    && (s.runner.Waiting? || s.runner.Accepted? ==> s.pi.NotStarted?)
    && (s.runner == Closed(true) ==> s.pi.NotStarted? || s.pi == Ended(true))
    && (s.report ==> s.pi == Ended(true))
    && (s.arriving || s.runner.Accepted? || s.runner.Commanded? || !s.pi.NotStarted? ==> s.proof.Some?)
    && (s.guard.Draining? ==> s.proof.None?)
    && (s.guard.Lifted? && s.guard.acknowledged ==> s.runner == Closed(true))
  }

  /** What each clock reading proves about the times that follow. */
  predicate Times(env: Env, s: State) {
    && (s.proof.Some? ==>
          var p := s.proof.value;
          && !s.guard.Draining? && p.read == s.guard.read && p.read <= p.wall <= p.read + env.gap
          && p.wall <= s.now && p.issuedAt == p.wall.Floor)
    && (s.guard.Lifted? ==> s.guard.at <= s.now && (!s.guard.acknowledged ==> s.guard.at >= s.guard.read + LEASE))
    && (s.guard.Holding? ==> s.guard.read <= s.now)
    && (s.proof.Some? ==> PiTimes(env, s.proof.value, s.pi))
    && (s.proof.None? ==> s.pi.NotStarted?)
  }

  /** A first check at `first` passed in time, so the Pi clock is not slower than its skew allows. */
  predicate FirstOk(env: Env, p: Proof, first: real) {
    first <= p.wall + env.delay && p.issuedAt as real <= first + env.offset + SKEW
  }

  predicate EntryOk(env: Env, p: Proof, last: real) {
    last < p.wall + env.delay + LatestEntry(env.overrun)
  }

  predicate PiTimes(env: Env, p: Proof, pi: Pi) {
    match pi
    case Checked(first, _) => FirstOk(env, p, first)
    case Settled(first) => FirstOk(env, p, first)
    case Prepared(first) => FirstOk(env, p, first)
    case Reserved(first, at) => FirstOk(env, p, first)
      && at + env.offset + RESERVE + IDLE_RESERVE < (p.issuedAt + PROOF_LIFE) as real
    case Entering(last) => EntryOk(env, p, last)
    case Active(last, since) => EntryOk(env, p, last) && since <= last + env.slack
    case Restoring(last, since) => EntryOk(env, p, last) && since <= last + env.slack + ACTIVATION
    case _ => true
  }

  predicate Inv(env: Env, s: State) {
    Roles(s) && Times(env, s) && (Within(env) ==> !s.breached)
  }

  lemma KeepGuard(env: Env, s: State, e: Event)
    requires Sensible(env) && Inv(env, s)
    requires e.Tick? || e.GuardReadsClock? || e.GuardIssues? || e.GuardHears? || e.GuardDeadline?
    ensures Inv(env, Apply(env, s, e))
  {}

  lemma KeepRunner(env: Env, s: State, e: Event)
    requires Sensible(env) && Inv(env, s)
    requires e.ProofLost? || e.RunnerAccepts? || e.RunnerGivesUp? || e.RunnerCommands? || e.RunnerHears?
          || e.RunnerLosesPi? || e.ReportLost?
    ensures Inv(env, Apply(env, s, e))
  {}

  lemma KeepPi(env: Env, s: State, e: Event)
    requires Sensible(env) && Inv(env, s)
    requires e.PiFirstCheck? || e.PiSettles? || e.PiPrepares? || e.PiReserves? || e.PiLastCheck?
    ensures Inv(env, Apply(env, s, e))
  {}

  lemma KeepActivation(env: Env, s: State, e: Event)
    requires Sensible(env) && Inv(env, s)
    requires e.PiActivates? || e.PiRollsBack? || e.PiEnds?
    ensures Inv(env, Apply(env, s, e))
  {}

  /** The heart of the timing argument: a Pi that may still change its live service is early
      enough, so an unacknowledged guard cannot have lifted the pause yet. */
  lemma KeepChange(env: Env, s: State)
    requires Sensible(env) && Inv(env, s)
    ensures Inv(env, Apply(env, s, PiChanges))
  {
    if Within(env) && Apply(env, s, PiChanges) != s {
      var p := s.proof.value;
      assert s.now <= s.pi.last + env.slack + ACTIVATION + ROLLBACK;
      assert s.now < p.wall + env.delay + env.slack + LEASE - Slack(env.overrun) <= p.read + LEASE;
      assert !s.guard.Lifted?;
    }
  }

  lemma Keep(env: Env, s: State, e: Event)
    requires Sensible(env) && Inv(env, s)
    ensures Inv(env, Apply(env, s, e))
  {
    if e.PiChanges? { KeepChange(env, s); }
    else if e.PiFirstCheck? || e.PiSettles? || e.PiPrepares? || e.PiReserves? || e.PiLastCheck? {
      KeepPi(env, s, e);
    } else if e.PiActivates? || e.PiRollsBack? || e.PiEnds? {
      KeepActivation(env, s, e);
    } else if e.Tick? || e.GuardReadsClock? || e.GuardIssues? || e.GuardHears? || e.GuardDeadline? {
      KeepGuard(env, s, e);
    } else {
      KeepRunner(env, s, e);
    }
  }

  lemma {:induction false} RunInv(env: Env, es: seq<Event>)
    requires Sensible(env)
    ensures Inv(env, Run(env, es))
  {
    if es != [] {
      RunInv(env, es[..|es| - 1]);
      Keep(env, Run(env, es[..|es| - 1]), es[|es| - 1]);
    }
  }

  // ----- Main results -----

  /** Over every interleaving, with any losses and whatever the clocks: once the Pi has been
      commanded, the guard lifts the pause only after the Pi reported completion and the runner
      acknowledged it, or when its hold deadline has passed. */
  lemma LiftOnlyAcknowledgedOrExpired(env: Env, es: seq<Event>)
    requires Sensible(env)
    ensures var s := Run(env, es);
      s.guard.Lifted? ==>
        || s.guard.at >= s.guard.read + LEASE
        || (s.runner == Closed(true) && (s.pi.NotStarted? || s.pi == Ended(true)))
  {
    RunInv(env, es);
  }

  /** If delivery, clock-read gap and untimed moments together stay within the slack, then for
      every Pi clock offset the guard never lifts the pause while an activation or its rollback
      can still change the live service. */
  lemma FenceHolds(env: Env, es: seq<Event>)
    requires Sensible(env) && Within(env)
    ensures !Run(env, es).breached
  {
    RunInv(env, es);
  }

  // ----- The slack is exact -----

  ghost predicate Reachable(env: Env, s: State) {
    exists es :: Run(env, es) == s
  }

  lemma StepTo(env: Env, s: State, e: Event, s': State)
    requires Reachable(env, s) && Apply(env, s, e) == s'
    ensures Reachable(env, s')
  {
    var es :| Run(env, es) == s;
    assert (es + [e])[..|es|] == es;
    assert Run(env, es + [e]) == s';
  }

  /** The slowest Pi clock that still passes the skew check after the full delay. */
  function SlowPi(gap: real, delay: real, overrun: real, slack: real): Env {
    Env(gap.Floor as real - (gap + delay) - SKEW, gap, delay, overrun, slack)
  }

  function Commanding(now: real, gap: real, pi: Pi): State {
    State(now, Holding(0.0), Commanded, pi, Some(Proof(0.0, gap, gap.Floor)), false, false, 0, false)
  }

  lemma ProofReaches(env: Env)
    requires Sensible(env)
    ensures Reachable(env, Commanding(env.gap, env.gap, Started))
  {
    assert Run(env, []) == INITIAL;
    var a := INITIAL.(guard := Holding(0.0));
    StepTo(env, INITIAL, GuardReadsClock, a);
    var b := a.(now := env.gap);
    StepTo(env, a, Tick(env.gap), b);
    var c := b.(proof := Some(Proof(0.0, env.gap, env.gap.Floor)), arriving := true);
    StepTo(env, b, GuardIssues, c);
    var d := c.(runner := Accepted, arriving := false);
    StepTo(env, c, RunnerAccepts, d);
    StepTo(env, d, RunnerCommands, Commanding(env.gap, env.gap, Started));
  }

  lemma WaitUntil(env: Env, s: State, t: real)
    requires Reachable(env, s) && t >= s.now
    ensures Reachable(env, s.(now := t))
  {
    StepTo(env, s, Tick(t - s.now), s.(now := t));
  }

  /** The checks up to the candidate, all at the latest moment the delivery allows. */
  lemma PreparedReaches(env: Env, first: real)
    requires Sensible(env) && first == env.gap + env.delay
    requires env.offset == env.gap.Floor as real - first - SKEW
    ensures Reachable(env, Commanding(first, env.gap, Prepared(first)))
  {
    ProofReaches(env);
    WaitUntil(env, Commanding(env.gap, env.gap, Started), first);
    var a := Commanding(first, env.gap, Checked(first, first));
    StepTo(env, Commanding(first, env.gap, Started), PiFirstCheck(0.0, 0.0), a);
    var b := Commanding(first, env.gap, Settled(first));
    StepTo(env, a, PiSettles(0.0, 0.0), b);
    StepTo(env, b, PiPrepares(0.0, 0.0), Commanding(first, env.gap, Prepared(first)));
  }

  /** The reserving check as late as it passes, then `wait_idle` up to its deadline. */
  lemma LateEntryReaches(env: Env, first: real, reserve: real, last: real)
    requires Sensible(env) && first == env.gap + env.delay && first <= reserve <= last
    requires env.offset == env.gap.Floor as real - first - SKEW
    requires reserve < first + PROOF_LIFE as real + SKEW - RESERVE - IDLE_RESERVE
    requires last < first + LatestEntry(env.overrun) && InTime(env, reserve, last)
    ensures Reachable(env, Commanding(last, env.gap, Entering(last)))
  {
    PreparedReaches(env, first);
    WaitUntil(env, Commanding(first, env.gap, Prepared(first)), reserve);
    var pi := Reserved(first, reserve);
    StepTo(env, Commanding(reserve, env.gap, Prepared(first)), PiReserves(0.0, 0.0), Commanding(reserve, env.gap, pi));
    WaitUntil(env, Commanding(reserve, env.gap, pi), last);
    StepTo(env, Commanding(last, env.gap, pi), PiLastCheck(0.0, 0.0), Commanding(last, env.gap, Entering(last)));
  }

  lemma LateRollbackReaches(env: Env, last: real, start: real, back: real)
    requires Sensible(env) && start == last + env.slack && back == start + ACTIVATION
    requires Reachable(env, Commanding(last, env.gap, Entering(last)))
    ensures Reachable(env, Commanding(back, env.gap, Restoring(last, back)))
  {
    WaitUntil(env, Commanding(last, env.gap, Entering(last)), start);
    var active := Active(last, start);
    StepTo(env, Commanding(start, env.gap, Entering(last)), PiActivates, Commanding(start, env.gap, active));
    WaitUntil(env, Commanding(start, env.gap, active), back);
    StepTo(env, Commanding(back, env.gap, active), PiRollsBack, Commanding(back, env.gap, Restoring(last, back)));
  }

  lemma LateChangeBreaches(env: Env, last: real, back: real, end: real) returns (s: State)
    requires end == back + ROLLBACK && end >= LEASE
    requires Reachable(env, Commanding(back, env.gap, Restoring(last, back)))
    ensures Reachable(env, s) && s.breached
  {
    WaitUntil(env, Commanding(back, env.gap, Restoring(last, back)), end);
    var t := Commanding(end, env.gap, Restoring(last, back));
    var u := t.(guard := Lifted(0.0, end, false));
    StepTo(env, t, GuardDeadline, u);
    s := u.(changes := 1, breached := true);
    StepTo(env, u, PiChanges, s);
  }

  /** Beyond the slack a slow Pi clock and a run that keeps every deadline do breach the fence. */
  lemma BreachReaches(gap: real, delay: real, overrun: real, slack: real) returns (s: State)
    requires 0.0 <= gap && 0.0 <= delay && 0.0 <= overrun && 0.0 <= slack
    requires gap + delay + slack > Slack(overrun)
    ensures Reachable(SlowPi(gap, delay, overrun, slack), s) && s.breached
  {
    var env := SlowPi(gap, delay, overrun, slack);
    var first := gap + delay;
    var over := first + slack - Slack(overrun);
    var early := if over > 1.0 then 1.0 else over / 2.0;
    var last := first + LatestEntry(overrun) - early;
    var reserve := last - Min(IDLE_LIMIT + overrun, last - first);
    LateEntryReaches(env, first, reserve, last);
    LateRollbackReaches(env, last, last + slack, last + slack + ACTIVATION);
    s := LateChangeBreaches(env, last, last + slack + ACTIVATION, last + slack + ACTIVATION + ROLLBACK);
  }

  ghost predicate NeverBreached(gap: real, delay: real, overrun: real, slack: real) {
    forall offset, es :: !Run(Env(offset, gap, delay, overrun, slack), es).breached
  }

  /** The fence holds for every Pi clock offset and every run exactly when the three delays fit
      into what 1620, 90, 30, 540 + 150 + 60, 250 and 240 leave: 130 seconds less the overrun of
      `wait_idle`, and never less than 120. */
  lemma SlackIsExact(gap: real, delay: real, overrun: real, slack: real)
    requires 0.0 <= gap && 0.0 <= delay && 0.0 <= overrun && 0.0 <= slack
    ensures Slack(overrun) == if overrun < 10.0 then 130.0 - overrun else 120.0
    ensures NeverBreached(gap, delay, overrun, slack) <==> gap + delay + slack <= Slack(overrun)
  {
    if gap + delay + slack <= Slack(overrun) {
      forall offset, es ensures !Run(Env(offset, gap, delay, overrun, slack), es).breached {
        FenceHolds(Env(offset, gap, delay, overrun, slack), es);
      }
    } else {
      var s := BreachReaches(gap, delay, overrun, slack);
      var env := SlowPi(gap, delay, overrun, slack);
      var es :| Run(env, es) == s;
      var offset := env.offset;
      assert Run(Env(offset, gap, delay, overrun, slack), es).breached;
    }
  }
}
