/** The DAG guard (scripts/pi_ydmap_dag_guard.py): pause one DAG in an idle window, issue a
    timed proof, hold the pause, put the flag back. */
module DagGuard {
  import opened Effects

  const HOLD_SECONDS := 1620
  const PROOF_MARGIN_SECONDS := 90
  const DRAIN_SECONDS := 600
  const RESTORE_SECONDS := 60

  datatype PauseResult = Paused(was: bool) | Busy(tasks: nat, runs: nat) | PauseRaised

  datatype CountResult = Counted(tasks: nat, runs: nat) | CountRaised

  datatype RestoreResult = Verified(equal: bool) | RestoreRaised

  datatype Proof = Proof(issuedAt: int, expiresAt: int, wasPaused: bool)

  /** What the outside world sees of a guard, with the monotonic time. `Refused` is a pause given
      up because something was active, `Sampled` a count taken under the pause, `PutBack` an
      attempt to restore the flag, and `Broke` a failed query, a lost reply or a signal. */
  datatype Act =
    | Refused(tasks: nat, runs: nat)
    | Acquired(at: real)
    | Sampled(at: real, tasks: nat, runs: nat)
    | Issued(at: real, proof: Proof)
    | PutBack(at: real, verified: bool)
    | Broke

  predicate Empty(a: Act) {
    a.Sampled? && a.tasks == 0 && a.runs == 0
  }

  predicate Setback(a: Act) {
    a.Broke? || (a.PutBack? && !a.verified)
  }

  predicate EndsEmpty(log: seq<Act>) {
    log != [] && Empty(log[|log| - 1])
  }

  predicate EndsBadly(log: seq<Act>) {
    log != [] && Setback(log[|log| - 1])
  }

  predicate Issues(log: seq<Act>) {
    exists a :: a in log && a.Issued?
  }

  predicate Drained(log: seq<Act>) {
    |log| >= 2 && Empty(log[|log| - 1]) && Empty(log[|log| - 2])
  }

  /** The DAG's row and the backend's note of its pause flag. `log` is a history. */
  class Backend {
    var paused: bool
    var original: Option<bool>
    ghost var log: seq<Act>

    constructor (paused: bool)
      ensures this.paused == paused && original.None? && log == []
    {
      this.paused, original, log := paused, None, [];
    }

    /** The flag is the initial one, or the note says what the initial one was. */
    ghost predicate Conserves(initial: bool)
      reads this
    {
      if original.Some? then original.value == initial else paused == initial
    }

    /** A signal may reach the guard between two steps. */
    method Interrupted() returns (b: bool)
      modifies `log
      ensures log == if b then old(log) + [Broke] else old(log)
    {
      b := Happens();
      if b { log := log + [Broke]; }
    }

    /** One locked transaction: refuse while anything is active, else note the flag and pause.
        The note survives a commit whose result is lost. */
    method Pause(clock: Clock) returns (r: PauseResult)
      requires original.None?
      modifies this
      ensures Conserves(old(paused))
      ensures r.Busy? ==> paused == old(paused) && original.None?
      ensures r.Busy? ==> (r.tasks > 0 || r.runs > 0) && log == old(log) + [Refused(r.tasks, r.runs)]
      ensures r.Paused? ==> r.was == old(paused) && paused && original == Some(old(paused))
      ensures r.Paused? ==> log == old(log) + [Acquired(clock.now)]
      ensures r.PauseRaised? ==> log == old(log) + [Broke] || log == old(log) + [Acquired(clock.now), Broke]
    {
      var missing := Happens();
      if missing {
        log := log + [Broke];
        return PauseRaised;
      }
      var tasks := Any();
      var runs := Any();
      if tasks != 0 || runs != 0 {
        log := log + [Refused(tasks, runs)];
        return Busy(tasks, runs);
      }
      original := Some(paused);
      var was := paused;
      var committed := Happens();
      if committed {
        paused := true;
        log := log + [Acquired(clock.now)];
      }
      var acknowledged := Happens();
      if committed && acknowledged { return Paused(was); }
      log := log + [Broke];
      assert committed ==> log == old(log) + [Acquired(clock.now), Broke];
      return PauseRaised;
    }

    method Counts(clock: Clock) returns (r: CountResult)
      modifies `log
      ensures r.Counted? ==> paused && log == old(log) + [Sampled(clock.now, r.tasks, r.runs)]
      ensures r.CountRaised? ==> log == old(log) + [Broke]
    {
      var broken := Happens();
      if broken || !paused {
        log := log + [Broke];
        return CountRaised;
      }
      var tasks := Any();
      var runs := Any();
      log := log + [Sampled(clock.now, tasks, runs)];
      return Counted(tasks, runs);
    }

    method Issue(clock: Clock, wallClock: real, wasPaused: bool) returns (p: Proof)
      modifies `log
      ensures p.issuedAt as real <= wallClock < (p.issuedAt + 1) as real
      ensures p.expiresAt == p.issuedAt + 1530 && p.wasPaused == wasPaused
      ensures log == old(log) + [Issued(clock.now, p)]
    {
      p := Proof(wallClock.Floor, wallClock.Floor + HOLD_SECONDS - PROOF_MARGIN_SECONDS, wasPaused);
      log := log + [Issued(clock.now, p)];
    }

    method Restore(clock: Clock, state: bool) returns (r: RestoreResult)
      modifies `paused, `log
      ensures r.Verified? ==> paused == state && r.equal
      ensures paused == state || paused == old(paused)
      ensures log == old(log) + [PutBack(clock.now, r.Verified?)]
    {
      var committed := Happens();
      if committed { paused := state; }
      var unreadable := Happens();
      r := if !committed || unreadable then RestoreRaised else Verified(paused == state);
      log := log + [PutBack(clock.now, r.Verified?)];
    }
  }

  /** What a finished guard has reported. */
  datatype Report = Report(ok: bool, restored: bool, proof: Option<Proof>)

  /** How one pass of the drain loop ends: try again later, one more empty sample, or give up. */
  datatype Cycle = Again | OneEmpty | GiveUp

  /** One pass: acquire the pause if it is not held, take a sample, and put the flag back if a run
      has raced the pause. */
  method DrainOnce(backend: Backend, clock: Clock, held: Option<bool>, ghost initial: bool)
    returns (original: Option<bool>, r: Cycle)
    requires backend.Conserves(initial) && held == backend.original && !Issues(backend.log)
    modifies backend
    ensures backend.Conserves(initial) && !Issues(backend.log)
    ensures original.Some? ==> original.value == initial && backend.original == original
    ensures r.Again? ==> original.None? && backend.original.None?
    ensures r.GiveUp? ==> EndsBadly(backend.log)
    ensures r.OneEmpty? ==> original.Some? && EndsEmpty(backend.log) && backend.log[|backend.log| - 1].at == clock.now
    ensures r.OneEmpty? && held.Some? ==> backend.log == old(backend.log) + [Sampled(clock.now, 0, 0)]
  {
    original := held;
    if original.None? {
      var p := backend.Pause(clock);
      match p {
        case Busy(_, _) => return original, Again;
        case PauseRaised => return original, GiveUp;
        case Paused(was) => original := Some(was);
      }
    }
    var c := backend.Counts(clock);
    if c.CountRaised? { return original, GiveUp; }
    if c.tasks == 0 && c.runs == 0 { return original, OneEmpty; }
    var b := backend.Restore(clock, original.value);
    if !(b.Verified? && b.equal) { return original, GiveUp; }
    original := None;
    var interrupted := backend.Interrupted();
    if interrupted { return original, GiveUp; }
    backend.original := None;
    return original, Again;
  }

  /** The drain loop: an idle window is acquired and must survive two consecutive empty
      samples; a racing run makes the guard put the flag back and start over. It gives up only
      on a setback or when its time is over. */
  method Drain(backend: Backend, clock: Clock, ghost initial: bool) returns (original: Option<bool>, drained: bool)
    requires backend.original.None? && backend.paused == initial && backend.log == []
    modifies backend, clock
    ensures backend.Conserves(initial)
    ensures original.Some? ==> original.value == initial && backend.original == original
    ensures drained ==> original.Some? && Drained(backend.log) && backend.log[|backend.log| - 1].at <= clock.now
    ensures !drained ==> clock.now >= old(clock.now) + 600.0 || EndsBadly(backend.log)
    ensures clock.now >= old(clock.now) && !Issues(backend.log)
  {
    original, drained := None, false;
    var deadline := clock.now + DRAIN_SECONDS as real;
    var emptyCycles := 0;
    while clock.now < deadline
      invariant backend.Conserves(initial) && original == backend.original && !Issues(backend.log)
      invariant 0 <= emptyCycles < 2 && (original.None? ==> emptyCycles == 0)
      invariant emptyCycles == 1 ==> EndsEmpty(backend.log)
      invariant clock.now >= old(clock.now)
      decreases deadline - clock.now
    {
      var r;
      original, r := DrainOnce(backend, clock, original, initial);
      if r.GiveUp? { return; }
      emptyCycles := if r.OneEmpty? then emptyCycles + 1 else 0;
      if emptyCycles >= 2 {
        drained := true;
        return;
      }
      var interrupted := backend.Interrupted();
      if interrupted { return; }
      clock.Pass(2.0);
    }
  }

  /** The acknowledgement on standard input. `chunks` is what successive reads return: an
      empty chunk is end of file, and running out of chunks is the timeout. */
  datatype Release = Released | Eof | Invalid | TimedOut

  function Joined(chunks: seq<string>): string {
    if chunks == [] then "" else Joined(chunks[..|chunks| - 1]) + chunks[|chunks| - 1]
  }

  lemma {:induction false} JoinedPrefix(chunks: seq<string>, i: nat, k: nat)
    requires i <= k <= |chunks|
    ensures Joined(chunks[..i]) <= Joined(chunks[..k])
  {
    if i < k {
      JoinedPrefix(chunks, i, k - 1);
      assert chunks[..k][..k - 1] == chunks[..k - 1];
    }
  }

  /** Some reads, none of them end of file, add up to exactly the acknowledgement. */
  ghost predicate Acknowledged(chunks: seq<string>) {
    exists k :: 0 <= k <= |chunks| && Joined(chunks[..k]) == "release\n" && "" !in chunks[..k]
  }

  /** However the bytes are split into reads: the guard is released exactly by the
      acknowledgement, with nothing before or after it in the read that completes it. */
  method WaitRelease(chunks: seq<string>) returns (r: Release)
    ensures r.Released? <==> Acknowledged(chunks)
    ensures r.Eof? ==> "" in chunks
  {
    var value := "";
    for i := 0 to |chunks|
      invariant value == Joined(chunks[..i]) && "" !in chunks[..i] && |value| <= 128
      invariant forall k :: 0 <= k <= i ==> '\n' !in Joined(chunks[..k])
    {
      assert chunks[..i + 1][..i] == chunks[..i];
      if chunks[i] == "" {
        assert forall k :: i < k <= |chunks| ==> chunks[i] in chunks[..k];
        return Eof;
      }
      value := value + chunks[i];
      forall k | i < k <= |chunks| ensures value <= Joined(chunks[..k]) {
        JoinedPrefix(chunks, i + 1, k);
      }
      if |value| > 128 { return Invalid; }
      if '\n' in value {
        return if value == "release\n" then Released else Invalid;
      }
    }
    return TimedOut;
  }

  /** Proofs are issued on two empty samples taken one after the other under the pause. */
  ghost predicate ProofsSound(log: seq<Act>, initial: bool) {
    forall i :: 0 <= i < |log| && log[i].Issued? ==>
      && Drained(log[..i])
      && log[i].proof.wasPaused == initial && log[i].proof.expiresAt == log[i].proof.issuedAt + 1530
  }

  /** After a proof the flag is not touched for 1620 seconds from the last sample it rests on. */
  ghost predicate HoldsPause(log: seq<Act>) {
    forall i, j :: 1 <= i < j < |log| && log[i].Issued? && log[i - 1].Sampled? && log[j].PutBack? ==>
      log[j].at >= log[i - 1].at + 1620.0
  }

  /** The guard ended with attempts to put the flag back over a full minute, all in vain. */
  ghost predicate Persisted(log: seq<Act>, now: real) {
    exists i :: 0 <= i < |log| && AllInVain(log[i..]) && now >= log[i].at + 60.0
  }

  predicate AllInVain(acts: seq<Act>) {
    acts != [] && forall k :: 0 <= k < |acts| ==> acts[k].PutBack? && !acts[k].verified
  }

  /** Attempts to put the flag back, none before `from`. */
  predicate Attempts(acts: seq<Act>, from: real) {
    forall k :: 0 <= k < |acts| ==> acts[k].PutBack? && acts[k].at >= from
  }

  /** The last loop of the guard: the flag is put back, or every attempt of a minute failed. */
  method PutBackFlag(backend: Backend, clock: Clock, state: bool) returns (restored: bool, ghost acts: seq<Act>)
    modifies backend, clock
    ensures restored ==> backend.paused == state
    ensures !restored ==> AllInVain(acts) && clock.now >= acts[0].at + 60.0
    ensures backend.log == old(backend.log) + acts && Attempts(acts, old(clock.now))
    ensures clock.now >= old(clock.now)
  {
    restored, acts := false, [];
    ghost var start := clock.now;
    var deadline := clock.now + RESTORE_SECONDS as real;
    while clock.now < deadline
      invariant !restored && backend.log == old(backend.log) + acts && clock.now >= start
      invariant Attempts(acts, start) && (acts != [] ==> AllInVain(acts) && acts[0].at == start)
      invariant acts == [] ==> clock.now == start
      decreases deadline - clock.now
    {
      acts := acts + [PutBack(clock.now, false)];
      var attempt := backend.Restore(clock, state);
      if attempt.Verified? && attempt.equal {
        acts := acts[..|acts| - 1] + [PutBack(clock.now, true)];
        restored := true;
        return;
      }
      clock.Pass(5.0);
    }
  }

  /** At most the first entry of a hold is a proof. */
  predicate HoldActs(hold: seq<Act>) {
    || hold == [] || hold == [Broke]
    || (hold[0].Issued? && (hold == [hold[0]] || hold == [hold[0], Broke]))
  }

  /** The hold: the proof goes out, the acknowledgement is awaited, and without it the pause stays
      for the whole lease, whatever else happens. */
  method Hold(backend: Backend, clock: Clock, wallClock: real, was: bool, chunks: seq<string>)
    returns (ok: bool, proof: Option<Proof>, ghost acts: seq<Act>)
    modifies backend`log, clock
    ensures backend.log == old(backend.log) + acts && clock.now >= old(clock.now)
    ensures proof.None? ==> acts == [Broke] && !ok
    ensures proof.Some? ==>
              && proof.value.wasPaused == was && proof.value.expiresAt == proof.value.issuedAt + 1530
              && proof.value.issuedAt as real <= wallClock < (proof.value.issuedAt + 1) as real
              && |acts| >= 1 && acts[0].Issued? && acts[0].proof == proof.value
              && HoldActs(acts) && (ok <==> !EndsBadly(acts) && Acknowledged(chunks))
    ensures !ok ==> clock.now >= old(clock.now) + 1620.0
  {
    ok, proof := false, None;
    var deadline := clock.now + HOLD_SECONDS as real;
    var interrupted := backend.Interrupted();
    if interrupted {
      acts := [Broke];
    } else {
      clock.Pass(0.0);
      var p := backend.Issue(clock, wallClock, was);
      proof := Some(p);
      ghost var issued := Issued(clock.now, p);
      var answer := WaitRelease(chunks);
      clock.Pass(0.0);
      interrupted := backend.Interrupted();
      acts := if interrupted then [issued, Broke] else [issued];
      ok := !interrupted && answer.Released?;
    }
    assert backend.log == old(backend.log) + acts;
    while !ok && clock.now < deadline
      modifies clock
      invariant clock.now >= old(clock.now)
      decreases if deadline > clock.now then (deadline - clock.now).Floor + 1 else 0
    {
      clock.Pass(if deadline - clock.now < 5.0 then deadline - clock.now else 5.0);
    }
  }

  /** Drain, hold and restore put together: what the three parts of a log say about the whole. */
  lemma GuardLog(drain: seq<Act>, hold: seq<Act>, acts: seq<Act>, from: real, initial: bool)
    requires !Issues(drain) && Attempts(acts, from) && HoldActs(hold)
    requires hold != [] && hold[0].Issued? ==>
               && Drained(drain) && hold[0].proof.wasPaused == initial
               && hold[0].proof.expiresAt == hold[0].proof.issuedAt + 1530
    ensures ProofsSound(drain + hold + acts, initial)
    ensures drain != [] && drain[|drain| - 1].Sampled? && from >= drain[|drain| - 1].at + 1620.0 ==>
              HoldsPause(drain + hold + acts)
    ensures Issues(drain + hold + acts) <==> hold != [] && hold[0].Issued?
    ensures forall a :: a in drain + hold + acts && a.Issued? ==> hold != [] && a == hold[0]
  {
    var log := drain + hold + acts;
    forall i | 0 <= i < |log| && log[i].Issued? ensures i == |drain| && hold != [] && log[i] == hold[0] {
      OneIssue(drain, hold, acts, from, i);
    }
    if hold != [] && hold[0].Issued? {
      assert log[|drain|] == hold[0] && log[..|drain|] == drain;
    }
  }

  lemma OneIssue(drain: seq<Act>, hold: seq<Act>, acts: seq<Act>, from: real, i: nat)
    requires !Issues(drain) && Attempts(acts, from) && HoldActs(hold)
    requires i < |drain + hold + acts| && (drain + hold + acts)[i].Issued?
    ensures i == |drain| && hold != [] && (drain + hold + acts)[i] == hold[0]
  {}

  lemma InVainPersists(log: seq<Act>, acts: seq<Act>, now: real)
    requires AllInVain(acts) && now >= acts[0].at + 60.0
    ensures Persisted(log + acts, now)
  {
    assert (log + acts)[|log|..] == acts && (log + acts)[|log|] == acts[0];
  }

  ghost predicate SomeSetback(log: seq<Act>) {
    exists k :: 0 <= k < |log| && Setback(log[k])
  }

  lemma SetbackShows(drain: seq<Act>, hold: seq<Act>, acts: seq<Act>)
    ensures EndsBadly(drain) || EndsBadly(hold) ==> SomeSetback(drain + hold + acts)
  {
    var log := drain + hold + acts;
    if EndsBadly(drain) { assert log[|drain| - 1] == drain[|drain| - 1]; }
    if EndsBadly(hold) { assert log[|drain| + |hold| - 1] == hold[|hold| - 1]; }
  }

  /** Everything a finished guard owes: a proof was issued only after two consecutive empty samples
      under the pause; after a proof the flag is touched only on the acknowledgement or 1620
      seconds after the samples; the report names the proof; and the guard fails only for a reason. */
  ghost predicate Accounted(log: seq<Act>, r: Report, acknowledged: bool, start: real, now: real, initial: bool) {
    && ProofsSound(log, initial)
    && (r.ok || HoldsPause(log))
    && (r.proof.Some? <==> Issues(log))
    && (forall a :: a in log && a.Issued? ==> r.proof == Some(a.proof))
    && (r.ok ==> r.proof.Some? && acknowledged)
    && (!r.ok ==> !acknowledged || now >= start + 600.0 || SomeSetback(log))
    && (!r.restored ==> Persisted(log, now))
  }

  /** Without a proof there is nothing to hold. */
  lemma NoProofHolds(log: seq<Act>)
    requires !Issues(log)
    ensures HoldsPause(log)
  {}

  lemma Account(drain: seq<Act>, hold: seq<Act>, acts: seq<Act>, r: Report, drained: bool, acknowledged: bool,
                start: real, held: real, from: real, now: real, initial: bool)
    requires !Issues(drain) && Attempts(acts, from) && HoldActs(hold) && start <= held <= from <= now
    requires drained ==> Drained(drain) && drain[|drain| - 1].at <= held && hold != []
    requires !drained ==> hold == [] && r.proof.None? && !r.ok && (held >= start + 600.0 || EndsBadly(drain))
    requires r.proof.Some? <==> hold != [] && hold[0].Issued?
    requires r.proof.Some? ==> hold[0].proof == r.proof.value && r.proof.value.wasPaused == initial
                               && r.proof.value.expiresAt == r.proof.value.issuedAt + 1530
    requires drained ==> (r.ok <==> r.proof.Some? && !EndsBadly(hold) && acknowledged)
    requires drained && !r.ok ==> from >= held + 1620.0
    requires !r.restored ==> AllInVain(acts) && now >= acts[0].at + 60.0
    ensures Accounted(drain + hold + acts, r, acknowledged, start, now, initial)
  {
    var log := drain + hold + acts;
    GuardLog(drain, hold, acts, from, initial);
    SetbackShows(drain, hold, acts);
    if r.proof.None? { NoProofHolds(log); }
    if !r.restored { InVainPersists(drain + hold, acts, now); }
  }

  /** The whole guard, on a fresh backend, whatever is interrupted or fails and however often the
      drain starts over. A report of `restored` means the flag has its first value again; without
      it the guard tried for a minute. `chunks` is what arrives on standard input meanwhile. */
  method RunGuard(backend: Backend, clock: Clock, wallClock: real, chunks: seq<string>) returns (r: Report)
    requires backend.original.None? && backend.log == []
    modifies backend, clock
    ensures r.restored ==> backend.paused == old(backend.paused)
    ensures Accounted(backend.log, r, Acknowledged(chunks), old(clock.now), clock.now, old(backend.paused))
  {
    ghost var initial, start := backend.paused, clock.now;
    var ok := false;
    var proof: Option<Proof> := None;
    ghost var hold, acts: seq<Act> := [], [];
    var original, drained := Drain(backend, clock, initial);
    ghost var drain, held := backend.log, clock.now;
    if drained {
      ok, proof, hold := Hold(backend, clock, wallClock, original.value, chunks);
    }
    ghost var from := clock.now;
    var state := if original.Some? then original else backend.original;
    var restored := true;
    if state.Some? {
      restored, acts := PutBackFlag(backend, clock, state.value);
    }
    r := Report(ok, restored, proof);
    Account(drain, hold, acts, r, drained, Acknowledged(chunks), start, held, from, clock.now, initial);
    assert backend.log == drain + hold + acts;
  }
}
