/** Transactional activation of a scraper release on the Pi (`activate` in
    pi_host/dsh_ydmap/install.py): stop, switch link, switch drop-in, reload, start, check; on any
    failure or deadline the same steps back. */
module Activation {
  import opened Effects

  type Path = string
  type Text = string

  /** What systemd would run: the release behind the link, under this drop-in. */
  datatype Release = Release(link: Option<Path>, dropin: Option<Text>)

  datatype Step = Stop | Link | DropIn | Reload | Start
  datatype Gate = KnownLink | ReadHealth | SaveBackup | Reserve | Idle | LastCheck

  /** One poll of the health endpoint during the rollback. */
  datatype Poll = Matches | Differs | Deadline

  /** How every step of one activation turns out. A deadline or an interrupt is a step that raises. */
  datatype World = World(gate: Gate -> bool, forward: Step -> Outcome, healthy: bool, inspected: bool,
                         back: Step -> Outcome, polls: seq<Poll>)

  /** No step raises. */
  predicate Smooth(step: Step -> Outcome) {
    && !step(Stop).Raised() && !step(Link).Raised() && !step(DropIn).Raised()
    && !step(Reload).Raised() && !step(Start).Raised()
  }

  /** The old identity answers before the rollback deadline strikes. */
  ghost predicate Answers(polls: seq<Poll>) {
    exists i :: 0 <= i < |polls| && polls[i] == Matches && Deadline !in polls[..i]
  }

  predicate Passes(w: World, interrupting: bool) {
    && w.gate(KnownLink) && w.gate(ReadHealth) && w.gate(SaveBackup)
    && (interrupting || (w.gate(Reserve) && w.gate(Idle) && w.gate(LastCheck)))
  }

  datatype Result = Refused | Applied | Failed(rollbackVerified: bool)

  /** Files, the drop-in systemd has read, and what the unit is running. */
  class Host {
    var files: Release
    var loaded: Option<Text>
    var running: Option<Release>
    ghost var changedLive: bool  // a file was once changed while the unit was running

    method DoStop(o: Outcome) returns (raised: bool)
      modifies `running
      ensures running == if o.Happened() then None else old(running)
      ensures raised == o.Raised()
    {
      if o.Happened() { running := None; }
      raised := o.Raised();
    }

    method DoLink(target: Option<Path>, o: Outcome) returns (raised: bool)
      modifies `files, `changedLive
      ensures changedLive == (old(changedLive) || running.Some?)
      ensures files == if o.Happened() then old(files).(link := target) else old(files)
      ensures raised == o.Raised()
    {
      changedLive := changedLive || running.Some?;
      if o.Happened() { files := files.(link := target); }
      raised := o.Raised();
    }

    method DoDropIn(text: Option<Text>, o: Outcome) returns (raised: bool)
      modifies `files, `changedLive
      ensures changedLive == (old(changedLive) || running.Some?)
      ensures files == if o.Happened() then old(files).(dropin := text) else old(files)
      ensures raised == o.Raised()
    {
      changedLive := changedLive || running.Some?;
      if o.Happened() { files := files.(dropin := text); }
      raised := o.Raised();
    }

    method DoReload(o: Outcome) returns (raised: bool)
      modifies `loaded
      ensures loaded == if o.Happened() then files.dropin else old(loaded)
      ensures raised == o.Raised()
    {
      if o.Happened() { loaded := files.dropin; }
      raised := o.Raised();
    }

    method DoStart(o: Outcome) returns (raised: bool)
      modifies `running
      ensures running == if o.Happened() then Some(Release(files.link, loaded)) else old(running)
      ensures raised == o.Raised()
    {
      if o.Happened() { running := Some(Release(files.link, loaded)); }
      raised := o.Raised();
    }

    /** Stop, link, drop-in, reload, start; `ok` if none of them raised. */
    method Switch(to: Release, step: Step -> Outcome) returns (ok: bool)
      modifies this
      ensures ok <==> Smooth(step)
      ensures changedLive == old(changedLive)
      ensures ok ==> files == to && loaded == to.dropin && running == Some(to)
      ensures files.link == to.link || files.link == old(files.link)
      ensures files.dropin == to.dropin || files.dropin == old(files.dropin)
    {
      ok := false;
      var raised := DoStop(step(Stop));
      if raised { return; }
      raised := DoLink(to.link, step(Link));
      if raised { return; }
      raised := DoDropIn(to.dropin, step(DropIn));
      if raised { return; }
      raised := DoReload(step(Reload));
      if raised { return; }
      raised := DoStart(step(Start));
      ok := !raised;
    }
  }

  /** Polls until the old identity answers, the polls run out, or the rollback deadline strikes. */
  method PollHealth(polls: seq<Poll>) returns (restored: bool)
    ensures restored <==> Answers(polls)
  {
    for i := 0 to |polls|
      invariant forall k :: 0 <= k < i ==> polls[k] == Differs
    {
      if polls[i] == Matches { return true; }
      if polls[i] == Deadline {
        assert forall k :: i < k < |polls| ==> polls[i] in polls[..k];
        return false;
      }
    }
    return false;
  }

  /** `activate`. On return the host runs the whole candidate; whenever the rollback is reported
      verified it runs the whole previous release; in no case is a file something else. */
  method Activate(host: Host, candidate: Path, override: Text, interrupting: bool, w: World) returns (r: Result)
    modifies host
    ensures r.Applied? ==> host.files == Release(Some(candidate), Some(override)) && host.running == Some(host.files)
    ensures r.Failed? && r.rollbackVerified ==> host.files == old(host.files) && host.running == Some(old(host.files))
    ensures r.Refused? ==> host.files == old(host.files) && host.running == old(host.running)
    ensures host.files.link in {Some(candidate), old(host.files.link)}
    ensures host.files.dropin in {Some(override), old(host.files.dropin)}
    ensures host.changedLive == old(host.changedLive)
    ensures r.Applied? ==> w.healthy
    ensures r.Applied? && !interrupting ==> w.inspected && w.gate(Reserve) && w.gate(Idle) && w.gate(LastCheck)
    ensures r.Refused? <==> !Passes(w, interrupting)
    ensures r.Applied? <==> Passes(w, interrupting) && Smooth(w.forward) && w.healthy && (interrupting || w.inspected)
    ensures r.Failed? ==> (r.rollbackVerified <==> Smooth(w.back) && Answers(w.polls))
  {
    if !w.gate(KnownLink) || !w.gate(ReadHealth) || !w.gate(SaveBackup) { return Refused; }
    var previous := host.files;
    if !interrupting && (!w.gate(Reserve) || !w.gate(Idle) || !w.gate(LastCheck)) { return Refused; }
    var ok := host.Switch(Release(Some(candidate), Some(override)), w.forward);
    if ok && w.healthy && (interrupting || w.inspected) { return Applied; }
    var restored := false;
    ok := host.Switch(previous, w.back);
    if ok {
      restored := PollHealth(w.polls);
    }
    r := Failed(restored);
  }
}
