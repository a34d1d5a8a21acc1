/** The release gate (scripts/github_release_gate.py): choosing the required check run, and
    waiting for it with two deadlines. */
module ReleaseGate {
  import opened Effects

  /** The values the gate tells apart; anything else, or nothing, is unfinished or unsuccessful. */
  datatype Status = Completed | OtherStatus(text: Option<string>)
  datatype Conclusion = Success | OtherConclusion(text: Option<string>)

  /** A check run as the API lists it; `id` is missing when it is not an integer. */
  datatype CheckRun = CheckRun(name: string, id: Option<int>, status: Status, conclusion: Conclusion)

  datatype Check = Check(present: bool, status: Status, conclusion: Conclusion, ok: bool)

  const ABSENT := Check(false, OtherStatus(None), OtherConclusion(None), false)

  predicate Candidate(r: CheckRun, name: string) {
    r.name == name && r.id.Some?
  }

  /** The newest candidate is the one with the largest id, the first of them if ids repeat. */
  predicate Latest(runs: seq<CheckRun>, name: string, k: nat) {
    && k < |runs| && Candidate(runs[k], name)
    && (forall i :: 0 <= i < |runs| && Candidate(runs[i], name) ==> runs[i].id.value <= runs[k].id.value)
    && (forall i :: 0 <= i < k && Candidate(runs[i], name) ==> runs[i].id.value < runs[k].id.value)
  }

  /** The candidate that `max` keeps while it walks the list. */
  function Newest(runs: seq<CheckRun>, name: string): (k: Option<nat>)
    ensures k.Some? ==> k.value < |runs| && Candidate(runs[k.value], name)
  {
    if runs == [] then None
    else
      var last := |runs| - 1;
      var best := Newest(runs[..last], name);
      if !Candidate(runs[last], name) then best
      else if best.Some? && runs[best.value].id.value >= runs[last].id.value then best
      else Some(last)
  }

  function ResultOf(run: CheckRun): Check {
    Check(true, run.status, run.conclusion, run.status.Completed? && run.conclusion.Success?)
  }

  /** `required_check_result`. */
  function RequiredCheckResult(runs: seq<CheckRun>, name: string): (c: Check)
    ensures c.ok ==> c.present && c.status.Completed?
    ensures !c.present ==> !c.status.Completed?
  {
    match Newest(runs, name)
    case None => ABSENT
    case Some(k) => ResultOf(runs[k])
  }

  lemma {:induction false} NewestIsLatest(runs: seq<CheckRun>, name: string)
    ensures match Newest(runs, name)
            case None => forall i :: 0 <= i < |runs| ==> !Candidate(runs[i], name)
            case Some(k) => Latest(runs, name, k)
  {
    if runs != [] { NewestIsLatest(runs[..|runs| - 1], name); }
  }

  /** The result describes the newest candidate, or says that there is none. */
  lemma ResultIsNewest(runs: seq<CheckRun>, name: string) returns (k: Option<nat>)
    ensures k.None? ==>
              var c := RequiredCheckResult(runs, name); !c.present && !c.ok && !c.status.Completed?
    ensures k.None? ==> forall i :: 0 <= i < |runs| ==> !Candidate(runs[i], name)
    ensures k.Some? ==> Latest(runs, name, k.value)
    ensures k.Some? ==>
              var run, c := runs[k.value], RequiredCheckResult(runs, name);
              && c.present && c.status == run.status && c.conclusion == run.conclusion
              && (c.ok <==> run.status == Completed && run.conclusion == Success)
  {
    NewestIsLatest(runs, name);
    k := Newest(runs, name);
  }

  /** The time `n` full poll intervals take. */
  ghost function Polls(n: nat, poll: real): real {
    if n == 0 then 0.0 else Polls(n - 1, poll) + poll
  }

  /** Full intervals that fit strictly into the wait are no more than wait/poll. */
  lemma PollsFit(n: nat, poll: real, wait: real)
    requires poll > 0.0 && Polls(n, poll) < wait
    ensures n <= (wait / poll).Floor
  {
    PollsMultiply(n, poll);
    assert (n as real) < wait / poll;
  }

  /** What the loop guarantees about its fetches, as a number. */
  lemma FetchBound(fetches: nat, poll: real, wait: real)
    requires poll > 0.0 && (fetches <= 4 || Polls(fetches - 4, poll) < wait)
    ensures wait >= 0.0 ==> fetches <= (wait / poll).Floor + 4
  {
    if fetches > 4 { PollsFit(fetches - 4, poll, wait); }
    if wait >= 0.0 { assert wait / poll >= 0.0; }
  }

  lemma {:induction false} PollsGrow(m: nat, n: nat, poll: real)
    requires m <= n && poll > 0.0
    ensures Polls(m, poll) <= Polls(n, poll)
  {
    if m < n { PollsGrow(m, n - 1, poll); }
  }

  /** Some number of polls takes as long as any wait, which is why the loop ends. */
  lemma EnoughPolls(poll: real, wait: real) returns (most: nat)
    requires poll > 0.0
    ensures Polls(most, poll) >= wait
  {
    if wait <= 0.0 {
      most := 0;
    } else {
      assert wait / poll > 0.0;
      most := (wait / poll).Floor + 1;
      if Polls(most, poll) < wait { PollsFit(most, poll, wait); }
    }
  }

  lemma {:induction false} PollsMultiply(n: nat, poll: real)
    ensures Polls(n, poll) == (n as real) * poll
  {
    if n > 0 {
      PollsMultiply(n - 1, poll);
    }
  }

  /** The sleeps so far: full intervals, and those cut short by either deadline. */
  datatype Sleeps = Sleeps(full: nat, toMissing: nat, toFinal: nat)

  /** What `elapsed` seconds say about the sleeps: a short one ends at its deadline, so there is at
      most one of each kind, and every full one began before the final deadline. */
  ghost predicate Accounts(c: Sleeps, fetches: nat, elapsed: real, wait: real, missing: real, poll: real) {
    && fetches == c.full + c.toMissing + c.toFinal && c.toMissing <= 1 && c.toFinal <= 1
    && elapsed >= Polls(c.full, poll) && (c.full == 0 || Polls(c.full - 1, poll) < wait)
    && (c.toMissing == 1 ==> elapsed >= missing) && (c.toFinal == 1 ==> elapsed >= wait)
  }

  lemma AccountsBound(c: Sleeps, fetches: nat, elapsed: real, wait: real, missing: real, poll: real, most: nat)
    requires poll > 0.0 && Accounts(c, fetches, elapsed, wait, missing, poll)
    requires Polls(most, poll) >= wait
    ensures fetches <= most + 2
    ensures fetches <= 3 || Polls(fetches - 3, poll) < wait
  {
    if fetches > 3 { PollsGrow(fetches - 3, c.full - 1, poll); }
    if c.full > most { PollsGrow(most, c.full - 1, poll); }
  }

  function Slept(c: Sleeps, whole: bool, present: bool): Sleeps {
    if whole then c.(full := c.full + 1)
    else if present then c.(toFinal := c.toFinal + 1)
    else c.(toMissing := c.toMissing + 1)
  }

  lemma AccountsSleep(c: Sleeps, fetches: nat, before: real, now: real, after: real, present: bool,
                      wait: real, missing: real, poll: real)
    requires Accounts(c, fetches, before, wait, missing, poll) && before <= now < wait
    requires !present ==> now < missing
    requires after >= now + Min(poll, (if present then wait else missing) - now) && poll > 0.0
    ensures Accounts(Slept(c, (if present then wait else missing) - now >= poll, present), fetches + 1,
                     after, wait, missing, poll)
  {}

  /** None of the first `n` fetches showed a completed check. */
  predicate Unfinished(fetch: nat -> seq<CheckRun>, name: string, n: nat) {
    n == 0 || (Unfinished(fetch, name, n - 1) && !RequiredCheckResult(fetch(n - 1), name).status.Completed?)
  }

  lemma {:induction false} UnfinishedMeans(fetch: nat -> seq<CheckRun>, name: string, n: nat)
    ensures Unfinished(fetch, name, n) <==>
            forall i: nat :: i < n ==> !RequiredCheckResult(fetch(i), name).status.Completed?
  {
    if n > 0 { UnfinishedMeans(fetch, name, n - 1); }
  }

  /** Each of the first `n` fetches showed no candidate. */
  predicate Absent(fetch: nat -> seq<CheckRun>, name: string, n: nat) {
    n == 0 || (Absent(fetch, name, n - 1) && !RequiredCheckResult(fetch(n - 1), name).present)
  }

  lemma {:induction false} AbsentMeans(fetch: nat -> seq<CheckRun>, name: string, n: nat)
    ensures Absent(fetch, name, n) <==> forall i: nat :: i < n ==> !RequiredCheckResult(fetch(i), name).present
  {
    if n > 0 { AbsentMeans(fetch, name, n - 1); }
  }

  /** No more sleep is asked for than time passes, than the wait, and, while the check has always
      been absent, than the shorter wait for a missing one. */
  ghost predicate Patient(asked: real, elapsed: real, wait: real, missing: real, absent: bool) {
    && asked <= elapsed && (wait >= 0.0 ==> asked <= wait)
    && (absent && missing >= 0.0 ==> asked <= missing)
  }

  /** One sleep after a fetch that decided nothing: the accounts go on to the next fetch. */
  lemma BooksSleep(c: Sleeps, fetches: nat, asked: real, before: real, now: real, sleep: real, after: real,
                   present: bool, absent: bool, wait: real, missing: real, poll: real)
    requires Accounts(c, fetches, before, wait, missing, poll) && Patient(asked, before, wait, missing, absent)
    requires before <= now < wait && poll > 0.0 && missing <= wait
    requires !present ==> now < missing
    requires sleep == Min(poll, (if present then wait else missing) - now) && after >= now + sleep
    ensures Accounts(Slept(c, (if present then wait else missing) - now >= poll, present), fetches + 1,
                     after, wait, missing, poll)
    ensures Patient(asked + sleep, after, wait, missing, absent && !present)
  {
    AccountsSleep(c, fetches, before, now, after, present, wait, missing, poll);
  }

  /** The sleep after a fetch that decided nothing, up to the deadline that matters next. */
  method Rest(clock: Clock, present: bool, next: real, now: real, poll: real,
              ghost c: Sleeps, ghost fetches: nat, ghost started: real, ghost asked: real, ghost before: real,
              ghost absent: bool, ghost wait: real, ghost missing: real)
    returns (ghost c': Sleeps, ghost absent': bool)
    requires fetches > 0 && poll > 0.0 && missing <= wait && clock.now == now && before <= now - started < wait
    requires next == started + (if present then wait else missing) && (!present ==> now < next)
    requires Accounts(c, fetches - 1, before, wait, missing, poll)
    requires Patient(clock.asked - asked, before, wait, missing, absent)
    modifies clock
    ensures absent' == (absent && !present) && clock.now - started >= before
    ensures Accounts(c', fetches, clock.now - started, wait, missing, poll)
    ensures Patient(clock.asked - asked, clock.now - started, wait, missing, absent')
  {
    var left := if next - now > 0.0 then next - now else 0.0;
    var sleep := Min(poll, left);
    ghost var soFar := clock.asked - asked;
    clock.Pass(sleep);
    BooksSleep(c, fetches - 1, soFar, before, now - started, sleep, clock.now - started,
               present, absent, wait, missing, poll);
    c', absent' := Slept(c, left >= poll, present), absent && !present;
  }

  /** `wait_for_required_check` with the `n`-th fetch listing `fetch(n)`. It ends after at most
      wait/poll + 4 fetches, by `FetchBound`; a timeout means the check exists and is unfinished,
      a missing-expiry means it does not exist, never both; neither means it is completed. */
  method WaitForRequiredCheck(clock: Clock, fetch: nat -> seq<CheckRun>, name: string,
                              wait: real, poll: real, missingWait: real)
    returns (check: Check, timedOut: bool, missingExpired: bool, fetches: nat)
    requires poll > 0.0
    modifies clock
    ensures fetches > 0 && check == RequiredCheckResult(fetch(fetches - 1), name)
    ensures timedOut ==> check.present && !check.status.Completed? && clock.now >= old(clock.now) + wait
    ensures missingExpired ==> !check.present && clock.now >= old(clock.now) + Min(wait, missingWait)
    ensures !(timedOut && missingExpired)
    ensures !timedOut && !missingExpired <==> check.status.Completed?
    ensures fetches <= 4 || Polls(fetches - 4, poll) < wait
    ensures Unfinished(fetch, name, fetches - 1)
    ensures wait >= 0.0 ==> clock.asked - old(clock.asked) <= wait
    ensures Min(wait, missingWait) >= 0.0 && Absent(fetch, name, fetches) ==>
              clock.asked - old(clock.asked) <= Min(wait, missingWait)
  {
    var started := clock.now;
    var deadline := started + wait;
    var missingDeadline := started + Min(wait, missingWait);
    fetches := 0;
    ghost var sleeps, asked, absent := Sleeps(0, 0, 0), clock.asked, true;
    ghost var most := EnoughPolls(poll, wait);
    while true
      invariant Accounts(sleeps, fetches, clock.now - started, wait, missingDeadline - started, poll)
      invariant Unfinished(fetch, name, fetches)
      invariant Patient(clock.asked - asked, clock.now - started, wait, missingDeadline - started, absent)
      invariant Absent(fetch, name, fetches) ==> absent
      decreases most + 2 - fetches
    {
      ghost var before := clock.now - started;
      AccountsBound(sleeps, fetches, before, wait, missingDeadline - started, poll, most);
      fetches := fetches + 1;
      check := RequiredCheckResult(fetch(fetches - 1), name);
      clock.Pass(0.0);
      var now := clock.now;
      missingExpired := !check.status.Completed? && !check.present && now >= missingDeadline;
      timedOut := !check.status.Completed? && !missingExpired && now >= deadline;
      if check.status.Completed? || missingExpired || timedOut { return; }
      sleeps, absent := Rest(clock, check.present, if check.present then deadline else missingDeadline, now, poll,
                             sleeps, fetches, started, asked, before, absent, wait, missingDeadline - started);
    }
  }
}
