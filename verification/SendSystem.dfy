/** Every run of any number of send requests against one ledger and one phone:
    requests interleave at each durable write and each tap, any call may fail before or
    after its effect, and any request may die at any point (sender_agent/app.py and the
    send loops of wechat_sender/appium_text_sender.py). */
module SendSystem {
  import opened Effects
  import opened Ledger

  type WorkerId = nat

  datatype Reply = Delivered | Cached | Refused | SafeToRetry | NeedsReconciliation

  /** Where one request stands. `Composing(i)` is everything up to the send button of
      message `i`; `Checkpoint` is between `submission_started = True` and the durable mark. */
  datatype Phase =
    | Waiting
    | Composing(next: nat)
    | Checkpoint(next: nat)
    | Armed(next: nat)
    | Tapped(next: nat)
    | AllConfirmed
    | Failed
    | Replied(reply: Reply)
    | Crashed

  datatype Worker = Worker(key: Key, payload: Payload, started: bool, confirmed: nat, phase: Phase)

  datatype Tap = Tap(worker: WorkerId, key: Key, position: nat)

  datatype Mark = Mark(worker: WorkerId, key: Key)

  /** `marks`, `taps` and `confirms` are histories: nothing in the program reads them. A
      confirmation names the tap whose message has left the input field. */
  datatype State = State(table: Table, workers: map<WorkerId, Worker>, marks: seq<Mark>, taps: seq<Tap>,
                         confirms: seq<Tap>)

  datatype Event =
    | Arrive(w: WorkerId, key: Key, payload: Payload)
    | Claim(w: WorkerId, outcome: Outcome)
    | Submit(w: WorkerId)
    | Checkpointed(w: WorkerId, outcome: Outcome)
    | TapSend(w: WorkerId, outcome: Outcome)
    | Confirm(w: WorkerId)
    | Raise(w: WorkerId)
    | Finish(w: WorkerId, outcome: Outcome)
    | Crash(w: WorkerId)

  /** What keeps two requests apart: nothing, the cross-process phone lease, or the
      in-process device lock. The lease is dropped by `_discard_warm_operator` before the
      failure is recorded; the lock is held until the reply. */
  datatype Mutex = NoMutex | PhoneLease | DeviceLock

  predicate Holds(m: Mutex, phase: Phase) {
    match m
    case NoMutex => false
    case PhoneLease => !phase.Failed? && !phase.Replied? && !phase.Crashed?
    case DeviceLock => !phase.Replied? && !phase.Crashed?
  }

  predicate Free(m: Mutex, s: State) {
    forall w :: w in s.workers ==> !Holds(m, s.workers[w].phase)
  }

  const INITIAL := State(map[], map[], [], [], [])

  function At(s: State, w: WorkerId, phase: Phase): State
    requires w in s.workers
  {
    s.(workers := s.workers[w := s.workers[w].(phase := phase)])
  }

  function StepClaim(s: State, w: WorkerId, outcome: Outcome): State
    requires w in s.workers && s.workers[w].phase.Waiting?
  {
    var me := s.workers[w];
    var phase := ClaimPhaseOf(s.table, me.key, me.payload, true);
    var after := if outcome.Happened() then s.(table := ClaimTable(s.table, me.key, me.payload, true)) else s;
    if outcome.Raised() then At(after, w, Replied(Refused))
    else match phase
      case Claimed => At(after, w, Composing(0))
      case AlreadySent(_) => At(after, w, Replied(Cached))
      case Conflict => At(after, w, Replied(Refused))
      case Unknown => At(after, w, Replied(NeedsReconciliation))
  }

  /** `SendProgress.submitting`: memory first, then the durable checkpoint, once per request. */
  function StepSubmit(s: State, w: WorkerId): State
    requires w in s.workers && s.workers[w].phase.Composing?
  {
    var me := s.workers[w];
    if me.started then At(s, w, Armed(me.phase.next))
    else s.(workers := s.workers[w := me.(started := true, phase := Checkpoint(me.phase.next))])
  }

  /** The mark took effect. */
  function Granted(s: State, w: WorkerId, phase: Phase): State
    requires w in s.workers && CanMark(s.table, s.workers[w].key)
  {
    var key := s.workers[w].key;
    At(s.(table := MarkTable(s.table, key), marks := s.marks + [Mark(w, key)]), w, phase)
  }

  function StepCheckpoint(s: State, w: WorkerId, outcome: Outcome): State
    requires w in s.workers && s.workers[w].phase.Checkpoint?
  {
    var me := s.workers[w];
    if !outcome.Happened() || !CanMark(s.table, me.key) then At(s, w, Failed)
    else
      Granted(s, w, if outcome.Raised() then Failed else Armed(me.phase.next))
  }

  function StepTap(s: State, w: WorkerId, outcome: Outcome): State
    requires w in s.workers && s.workers[w].phase.Armed?
  {
    var me := s.workers[w];
    var after := if outcome.Happened() then s.(taps := s.taps + [Tap(w, me.key, me.phase.next)]) else s;
    At(after, w, if outcome.Raised() then Failed else Tapped(me.phase.next))
  }

  function StepConfirm(s: State, w: WorkerId): State
    requires w in s.workers && s.workers[w].phase.Tapped?
  {
    var me := s.workers[w];
    var next := me.phase.next + 1;
    var phase := if next < |me.payload.messages| then Composing(next) else AllConfirmed;
    s.(workers := s.workers[w := me.(confirmed := me.confirmed + 1, phase := phase)],
       confirms := s.confirms + [Tap(w, me.key, me.phase.next)])
  }

  function OutcomeOf(me: Worker): Status {
    if me.phase.AllConfirmed? then Sent else if me.started then SubmissionUnknown else NotSubmitted
  }

  function ReceiptOf(me: Worker): Receipt {
    if me.phase.AllConfirmed? then Receipt(true, |me.payload.messages|) else Receipt(false, me.confirmed)
  }

  function StepFinish(s: State, w: WorkerId, outcome: Outcome): State
    requires w in s.workers && (s.workers[w].phase.AllConfirmed? || s.workers[w].phase.Failed?)
  {
    var me := s.workers[w];
    var after := if outcome.Happened()
                 then s.(table := FinishTable(s.table, me.key, OutcomeOf(me), Some(ReceiptOf(me)))) else s;
    At(after, w, Replied(
         if outcome.Raised() then NeedsReconciliation
         else if me.phase.AllConfirmed? then Delivered
         else if me.started then NeedsReconciliation else SafeToRetry))
  }

  predicate Mid(phase: Phase) {
    phase.Composing? || phase.Checkpoint? || phase.Armed? || phase.Tapped?
  }

  /** One event; an event that is not possible in `s` changes nothing. */
  function Apply(m: Mutex, s: State, e: Event): State {
    match e
    case Arrive(w, key, payload) =>
      if w !in s.workers && payload.messages != [] && Free(m, s)
      then s.(workers := s.workers[w := Worker(key, payload, false, 0, Waiting)]) else s
    case Claim(w, outcome) =>
      if w in s.workers && s.workers[w].phase.Waiting? then StepClaim(s, w, outcome) else s
    case Submit(w) =>
      if w in s.workers && s.workers[w].phase.Composing? then StepSubmit(s, w) else s
    case Checkpointed(w, outcome) =>
      if w in s.workers && s.workers[w].phase.Checkpoint? then StepCheckpoint(s, w, outcome) else s
    case TapSend(w, outcome) =>
      if w in s.workers && s.workers[w].phase.Armed? then StepTap(s, w, outcome) else s
    case Confirm(w) =>
      if w in s.workers && s.workers[w].phase.Tapped? then StepConfirm(s, w) else s
    case Raise(w) =>
      if w in s.workers && Mid(s.workers[w].phase) then At(s, w, Failed) else s
    case Finish(w, outcome) =>
      if w in s.workers && (s.workers[w].phase.AllConfirmed? || s.workers[w].phase.Failed?)
      then StepFinish(s, w, outcome) else s
    case Crash(w) =>
      if w in s.workers && !s.workers[w].phase.Replied? then At(s, w, Crashed) else s
  }

  function Run(m: Mutex, es: seq<Event>): State {
    if es == [] then INITIAL else Apply(m, Run(m, es[..|es| - 1]), es[|es| - 1])
  }

  // ----- The histories read back -----

  function PositionsOf(taps: seq<Tap>, key: Key): seq<nat> {
    if taps == [] then []
    else
      var rest := PositionsOf(taps[..|taps| - 1], key);
      var last := taps[|taps| - 1];
      if last.key == key then rest + [last.position] else rest
  }

  lemma PositionsSnoc(taps: seq<Tap>, t: Tap, key: Key)
    ensures PositionsOf(taps + [t], key)
         == if t.key == key then PositionsOf(taps, key) + [t.position] else PositionsOf(taps, key)
  {
    assert (taps + [t])[..|taps|] == taps;
  }

  lemma NoPositionsNoTaps(taps: seq<Tap>, key: Key)
    ensures PositionsOf(taps, key) == [] <==> forall t :: t in taps ==> t.key != key
  {
    if taps != [] {
      NoPositionsNoTaps(taps[..|taps| - 1], key);
      assert taps == taps[..|taps| - 1] + [taps[|taps| - 1]];
    }
  }

  // ----- The inductive invariant; it needs no mutual exclusion -----

  predicate Marked(s: State, w: WorkerId, key: Key) {
    Mark(w, key) in s.marks
  }

  /** How many messages a worker that passed its checkpoint must have tapped, exactly or at most. */
  predicate TapCount(me: Worker, n: nat) {
    match me.phase
    case Composing(i) => n == i
    case Armed(i) => n == i
    case Tapped(i) => n == i + 1
    case AllConfirmed => n == |me.payload.messages|
    case _ => true
  }

  predicate PastCheckpoint(me: Worker) {
    me.started && (me.phase.Composing? || me.phase.Armed? || me.phase.Tapped? || me.phase.AllConfirmed?)
  }

  ghost predicate WorkerOk(s: State, w: WorkerId)
    requires w in s.workers
  {
    var me := s.workers[w];
    && me.payload.messages != []
    && (!me.phase.Waiting? && !me.phase.Replied? && !me.phase.Crashed? ==>
          me.key in s.table && s.table[me.key].payload == me.payload)
    && (PastCheckpoint(me) ==> Marked(s, w, me.key))
    && (me.phase.Armed? || me.phase.Tapped? || me.phase.AllConfirmed? ==> me.started)
    && (Mid(me.phase) ==> me.phase.next < |me.payload.messages| && me.confirmed == me.phase.next)
    && (me.phase.Composing? && !me.started ==> me.phase.next == 0)
    && (me.phase.Checkpoint? ==> me.started && me.phase.next == 0)
    && (me.phase.Waiting? ==> !me.started && me.confirmed == 0)
    && (me.phase.AllConfirmed? ==> me.confirmed == |me.payload.messages|)
    && ((me.phase.Waiting? || me.phase.Checkpoint? || !me.started) ==> !Marked(s, w, me.key))
  }

  ghost predicate MarkOk(s: State, k: Mark) {
    && k.key in s.table && Crossed(s.table[k.key].status)
    && k.worker in s.workers && s.workers[k.worker].key == k.key
    && s.workers[k.worker].payload == s.table[k.key].payload
    && |PositionsOf(s.confirms, k.key)| == s.workers[k.worker].confirmed
    && var done := PositionsOf(s.taps, k.key);
       && |done| <= |s.table[k.key].payload.messages|
       && TapCount(s.workers[k.worker], |done|)
  }

  ghost predicate KeyOk(s: State, key: Key) {
    && PositionsOf(s.taps, key) == Upto(|PositionsOf(s.taps, key)|)
    && PositionsOf(s.confirms, key) == Upto(|PositionsOf(s.confirms, key)|)
    && |PositionsOf(s.confirms, key)| <= |PositionsOf(s.taps, key)|
    && (key in s.table && s.table[key].status == Sent ==>
          && |PositionsOf(s.confirms, key)| == |PositionsOf(s.taps, key)| == |s.table[key].payload.messages|
          && s.table[key].result == Some(Receipt(true, |s.table[key].payload.messages|)))
  }

  ghost predicate Inv(s: State) {
    && (forall w :: w in s.workers ==> WorkerOk(s, w))
    && (forall k :: k in s.marks ==> MarkOk(s, k))
    && (forall i, j :: 0 <= i < j < |s.marks| ==> s.marks[i].key != s.marks[j].key)
    && (forall t :: t in s.taps ==> Marked(s, t.worker, t.key))
    && (forall key :: KeyOk(s, key))
  }

  lemma OneOwner(s: State, a: Mark, b: Mark)
    requires Inv(s) && a in s.marks && b in s.marks && a.key == b.key
    ensures a == b
  {
    var i :| 0 <= i < |s.marks| && s.marks[i] == a;
    var j :| 0 <= j < |s.marks| && s.marks[j] == b;
  }

  lemma UncrossedUntapped(s: State, key: Key)
    requires Inv(s) && (key !in s.table || !Crossed(s.table[key].status))
    ensures PositionsOf(s.taps, key) == PositionsOf(s.confirms, key) == []
  {
    NoPositionsNoTaps(s.taps, key);
    forall t | t in s.taps ensures t.key != key {
      assert MarkOk(s, Mark(t.worker, t.key));
    }
    assert KeyOk(s, key);
  }

  /** The row of a worker that still has a message to tap or confirm cannot be `Sent`. */
  lemma SentIsUntouched(s: State, k: Mark)
    requires Inv(s) && k in s.marks && k.worker in s.workers && Mid(s.workers[k.worker].phase)
    ensures s.table[k.key].status != Sent
  {
    assert MarkOk(s, k);
    assert WorkerOk(s, k.worker);
    assert KeyOk(s, k.key);
  }

  // ----- Each event keeps the invariant -----

  /** A transaction may touch the table only along `Evolves`, and may write `Sent` only
      for a key whose messages have all been tapped. */
  lemma KeepTable(s: State, t: Table)
    requires Inv(s) && Evolves(s.table, t)
    requires forall key :: key in t && t[key].status == Sent ==>
               || (key in s.table && s.table[key] == t[key])
               || (&& |PositionsOf(s.confirms, key)| == |PositionsOf(s.taps, key)| == |t[key].payload.messages|
                   && t[key].result == Some(Receipt(true, |t[key].payload.messages|)))
    ensures Inv(s.(table := t))
  {
    var s' := s.(table := t);
    forall key ensures KeyOk(s', key) { assert KeyOk(s, key); }
    forall k | k in s'.marks ensures MarkOk(s', k) { assert MarkOk(s, k); }
    forall v | v in s'.workers ensures WorkerOk(s', v) { assert WorkerOk(s, v); }
  }

  /** One worker moves on; nobody else sees it. */
  lemma KeepMove(s: State, w: WorkerId, me: Worker)
    requires Inv(s) && w in s.workers
    requires me.(phase := Failed, started := true) == s.workers[w].(phase := Failed, started := true)
    requires WorkerOk(s.(workers := s.workers[w := me]), w)
    requires Marked(s, w, me.key) ==> TapCount(me, |PositionsOf(s.taps, me.key)|)
    ensures Inv(s.(workers := s.workers[w := me]))
  {
    var s' := s.(workers := s.workers[w := me]);
    forall key ensures KeyOk(s', key) { assert KeyOk(s, key); }
    forall k | k in s'.marks ensures MarkOk(s', k) { assert MarkOk(s, k); }
    forall v | v in s'.workers ensures WorkerOk(s', v) { assert WorkerOk(s, v) || v == w; }
  }

  lemma KeepClaimTable(s: State, key: Key, payload: Payload)
    requires Inv(s)
    ensures Inv(s.(table := ClaimTable(s.table, key, payload, true)))
  {
    ClaimEvolves(s.table, key, payload, true);
    KeepTable(s, ClaimTable(s.table, key, payload, true));
  }

  lemma KeepClaim(s: State, w: WorkerId, outcome: Outcome)
    requires Inv(s) && w in s.workers && s.workers[w].phase.Waiting?
    ensures Inv(StepClaim(s, w, outcome))
  {
    var me := s.workers[w];
    var after := if outcome.Happened() then s.(table := ClaimTable(s.table, me.key, me.payload, true)) else s;
    KeepClaimTable(s, me.key, me.payload);
    assert WorkerOk(after, w);
    KeepMove(after, w, StepClaim(s, w, outcome).workers[w]);
  }

  lemma KeepSubmit(s: State, w: WorkerId)
    requires Inv(s) && w in s.workers && s.workers[w].phase.Composing?
    ensures Inv(StepSubmit(s, w))
  {
    assert WorkerOk(s, w);
    if Marked(s, w, s.workers[w].key) { assert MarkOk(s, Mark(w, s.workers[w].key)); }
    KeepMove(s, w, StepSubmit(s, w).workers[w]);
  }

  lemma GrantMarks(s: State, w: WorkerId, phase: Phase)
    requires Inv(s) && w in s.workers && s.workers[w].phase.Checkpoint? && CanMark(s.table, s.workers[w].key)
    requires phase.Failed? || phase == Armed(s.workers[w].phase.next)
    ensures var s' := Granted(s, w, phase);
      && (forall k :: k in s'.marks ==> MarkOk(s', k))
      && (forall i, j :: 0 <= i < j < |s'.marks| ==> s'.marks[i].key != s'.marks[j].key)
  {
    var s' := Granted(s, w, phase);
    assert WorkerOk(s, w);
    UncrossedUntapped(s, s.workers[w].key);
    forall k | k in s'.marks ensures MarkOk(s', k) {
      if k in s.marks { assert MarkOk(s, k); }
    }
    forall i, j | 0 <= i < j < |s'.marks| ensures s'.marks[i].key != s'.marks[j].key {
      assert MarkOk(s, s'.marks[i]);
    }
  }

  /** The checkpoint is granted: the row was still `Preparing`, so the key had no owner and no tap. */
  lemma KeepGrant(s: State, w: WorkerId, phase: Phase)
    requires Inv(s) && w in s.workers && s.workers[w].phase.Checkpoint? && CanMark(s.table, s.workers[w].key)
    requires phase.Failed? || phase == Armed(s.workers[w].phase.next)
    ensures Inv(Granted(s, w, phase))
  {
    var s' := Granted(s, w, phase);
    assert WorkerOk(s, w);
    GrantMarks(s, w, phase);
    forall key ensures KeyOk(s', key) { assert KeyOk(s, key); }
    forall v | v in s'.workers ensures WorkerOk(s', v) { assert WorkerOk(s, v); }
  }

  lemma KeepCheckpoint(s: State, w: WorkerId, outcome: Outcome)
    requires Inv(s) && w in s.workers && s.workers[w].phase.Checkpoint?
    ensures Inv(StepCheckpoint(s, w, outcome))
  {
    if outcome.Happened() && CanMark(s.table, s.workers[w].key) {
      KeepGrant(s, w, if outcome.Raised() then Failed else Armed(s.workers[w].phase.next));
    } else {
      KeepStop(s, w, Failed);
    }
  }

  lemma TapKeys(s: State, w: WorkerId, phase: Phase, key: Key)
    requires Inv(s) && w in s.workers && s.workers[w].phase.Armed?
    ensures var me := s.workers[w];
            KeyOk(At(s.(taps := s.taps + [Tap(w, me.key, me.phase.next)]), w, phase), key)
  {
    var me := s.workers[w];
    assert KeyOk(s, key);
    PositionsSnoc(s.taps, Tap(w, me.key, me.phase.next), key);
    if key == me.key {
      assert WorkerOk(s, w) && MarkOk(s, Mark(w, me.key));
      SentIsUntouched(s, Mark(w, me.key));
    }
  }

  lemma TapMarks(s: State, w: WorkerId, phase: Phase, k: Mark)
    requires Inv(s) && w in s.workers && s.workers[w].phase.Armed? && k in s.marks
    requires phase.Failed? || phase == Tapped(s.workers[w].phase.next)
    ensures var me := s.workers[w];
            MarkOk(At(s.(taps := s.taps + [Tap(w, me.key, me.phase.next)]), w, phase), k)
  {
    var me := s.workers[w];
    assert WorkerOk(s, w) && MarkOk(s, k);
    PositionsSnoc(s.taps, Tap(w, me.key, me.phase.next), k.key);
    if k.key == me.key { OneOwner(s, k, Mark(w, me.key)); }
  }

  lemma TapWorkers(s: State, w: WorkerId, outcome: Outcome)
    requires Inv(s) && w in s.workers && s.workers[w].phase.Armed?
    ensures var s' := StepTap(s, w, outcome); forall v :: v in s'.workers ==> WorkerOk(s', v)
  {
    var s' := StepTap(s, w, outcome);
    forall v | v in s'.workers ensures WorkerOk(s', v) { assert WorkerOk(s, v); }
  }

  lemma KeepTap(s: State, w: WorkerId, outcome: Outcome)
    requires Inv(s) && w in s.workers && s.workers[w].phase.Armed?
    ensures Inv(StepTap(s, w, outcome))
  {
    var me := s.workers[w];
    assert WorkerOk(s, w);
    if outcome.Happened() {
      var s' := StepTap(s, w, outcome);
      TapWorkers(s, w, outcome);
      forall key ensures KeyOk(s', key) { TapKeys(s, w, s'.workers[w].phase, key); }
      forall k | k in s'.marks ensures MarkOk(s', k) { TapMarks(s, w, s'.workers[w].phase, k); }
    } else {
      KeepMove(s, w, me.(phase := Failed));
    }
  }

  lemma ConfirmKeys(s: State, w: WorkerId, key: Key)
    requires Inv(s) && w in s.workers && s.workers[w].phase.Tapped?
    ensures KeyOk(StepConfirm(s, w), key)
  {
    var me := s.workers[w];
    assert KeyOk(s, key);
    PositionsSnoc(s.confirms, Tap(w, me.key, me.phase.next), key);
    if key == me.key {
      assert WorkerOk(s, w) && MarkOk(s, Mark(w, me.key));
      SentIsUntouched(s, Mark(w, me.key));
    }
  }

  lemma ConfirmMarks(s: State, w: WorkerId, k: Mark)
    requires Inv(s) && w in s.workers && s.workers[w].phase.Tapped? && k in s.marks
    ensures MarkOk(StepConfirm(s, w), k)
  {
    var me := s.workers[w];
    assert WorkerOk(s, w) && MarkOk(s, k);
    PositionsSnoc(s.confirms, Tap(w, me.key, me.phase.next), k.key);
    if k.key == me.key { OneOwner(s, k, Mark(w, me.key)); }
  }

  lemma KeepConfirm(s: State, w: WorkerId)
    requires Inv(s) && w in s.workers && s.workers[w].phase.Tapped?
    ensures Inv(StepConfirm(s, w))
  {
    var s' := StepConfirm(s, w);
    assert WorkerOk(s, w);
    forall key ensures KeyOk(s', key) { ConfirmKeys(s, w, key); }
    forall k | k in s'.marks ensures MarkOk(s', k) { ConfirmMarks(s, w, k); }
    forall v | v in s'.workers ensures WorkerOk(s', v) { assert WorkerOk(s, v); }
  }

  lemma KeepFinishTable(s: State, w: WorkerId)
    requires Inv(s) && w in s.workers && (s.workers[w].phase.AllConfirmed? || s.workers[w].phase.Failed?)
    ensures var me := s.workers[w];
            Inv(s.(table := FinishTable(s.table, me.key, OutcomeOf(me), Some(ReceiptOf(me)))))
  {
    var me := s.workers[w];
    assert WorkerOk(s, w);
    if me.phase.AllConfirmed? { assert MarkOk(s, Mark(w, me.key)); }
    FinishEvolves(s.table, me.key, OutcomeOf(me), Some(ReceiptOf(me)));
    KeepTable(s, FinishTable(s.table, me.key, OutcomeOf(me), Some(ReceiptOf(me))));
  }

  lemma KeepFinish(s: State, w: WorkerId, outcome: Outcome)
    requires Inv(s) && w in s.workers && (s.workers[w].phase.AllConfirmed? || s.workers[w].phase.Failed?)
    ensures Inv(StepFinish(s, w, outcome))
  {
    var me := s.workers[w];
    var after := StepFinish(s, w, outcome).workers[w];
    assert WorkerOk(s, w);
    KeepFinishTable(s, w);
    KeepMove(s.(table := StepFinish(s, w, outcome).table), w, after);
  }

  /** `Raise` and `Crash` only move one worker to a phase about which nothing is promised. */
  lemma KeepStop(s: State, w: WorkerId, phase: Phase)
    requires Inv(s) && w in s.workers
    requires phase.Crashed? || (phase.Failed? && Mid(s.workers[w].phase))
    ensures Inv(At(s, w, phase))
  {
    assert WorkerOk(s, w);
    KeepMove(s, w, s.workers[w].(phase := phase));
  }

  lemma KeepArrive(s: State, w: WorkerId, key: Key, payload: Payload)
    requires Inv(s) && w !in s.workers && payload.messages != []
    ensures Inv(s.(workers := s.workers[w := Worker(key, payload, false, 0, Waiting)]))
  {
    var s' := s.(workers := s.workers[w := Worker(key, payload, false, 0, Waiting)]);
    forall k ensures KeyOk(s', k) { assert KeyOk(s, k); }
    forall k | k in s'.marks ensures MarkOk(s', k) { assert MarkOk(s, k); }
    forall v | v in s'.workers ensures WorkerOk(s', v) {
      if v in s.workers { assert WorkerOk(s, v); }
    }
  }

  lemma Keep(m: Mutex, s: State, e: Event)
    requires Inv(s)
    ensures Inv(Apply(m, s, e))
  {
    match e
    case Arrive(w, key, payload) =>
      if w !in s.workers && payload.messages != [] { KeepArrive(s, w, key, payload); }
    case Claim(w, outcome) =>
      if w in s.workers && s.workers[w].phase.Waiting? { KeepClaim(s, w, outcome); }
    case Submit(w) =>
      if w in s.workers && s.workers[w].phase.Composing? { KeepSubmit(s, w); }
    case Checkpointed(w, outcome) =>
      if w in s.workers && s.workers[w].phase.Checkpoint? { KeepCheckpoint(s, w, outcome); }
    case TapSend(w, outcome) =>
      if w in s.workers && s.workers[w].phase.Armed? { KeepTap(s, w, outcome); }
    case Confirm(w) =>
      if w in s.workers && s.workers[w].phase.Tapped? { KeepConfirm(s, w); }
    case Raise(w) =>
      if w in s.workers && Mid(s.workers[w].phase) { KeepStop(s, w, Failed); }
    case Finish(w, outcome) =>
      if w in s.workers && (s.workers[w].phase.AllConfirmed? || s.workers[w].phase.Failed?) {
        KeepFinish(s, w, outcome);
      }
    case Crash(w) =>
      if w in s.workers && !s.workers[w].phase.Replied? { KeepStop(s, w, Crashed); }
  }

  lemma {:induction false} RunInv(m: Mutex, es: seq<Event>)
    ensures Inv(Run(m, es))
  {
    if es == [] {
      forall key ensures KeyOk(INITIAL, key) {}
    } else {
      RunInv(m, es[..|es| - 1]);
      Keep(m, Run(m, es[..|es| - 1]), es[|es| - 1]);
    }
  }

  // ----- Main results -----

  lemma {:induction false} PositionsIncrease(taps: seq<Tap>, key: Key, i: nat, j: nat)
    requires PositionsOf(taps, key) == Upto(|PositionsOf(taps, key)|)
    requires i < |taps| && taps[i].key == key
    ensures taps[i].position < |PositionsOf(taps, key)|
    ensures i < j < |taps| && taps[j].key == key ==> taps[i].position < taps[j].position
    decreases |taps|
  {
    var front := taps[..|taps| - 1];
    var last := taps[|taps| - 1];
    var done := PositionsOf(taps, key);
    if last.key == key {
      assert PositionsOf(front, key) == done[..|done| - 1];
      assert done[|done| - 1] == last.position == |done| - 1;
    }
    if i < |front| {
      PositionsIncrease(front, key, i, if j < |front| then j else 0);
      if i < j < |front| { assert taps[j] == front[j]; }
    }
  }

  /** At most one request per key ever gets past the durable checkpoint, so all taps for a
      key come from one request and go through its messages in order without repeating one:
      under no mutual exclusion at all, with any failures, retries and crashes. */
  lemma AtMostOnce(m: Mutex, es: seq<Event>)
    ensures var s := Run(m, es);
      && (forall i, j :: 0 <= i < j < |s.marks| ==> s.marks[i].key != s.marks[j].key)
      && (forall t :: t in s.taps ==> Mark(t.worker, t.key) in s.marks)
      && (forall i, j :: 0 <= i < j < |s.taps| && s.taps[i].key == s.taps[j].key ==>
            s.taps[i].worker == s.taps[j].worker && s.taps[i].position < s.taps[j].position)
      && (forall t :: t in s.taps ==>
            t.key in s.table && t.position < |s.table[t.key].payload.messages|)
  {
    RunInv(m, es);
    var s := Run(m, es);
    forall i, j | 0 <= i < j < |s.taps| && s.taps[i].key == s.taps[j].key
      ensures s.taps[i].worker == s.taps[j].worker && s.taps[i].position < s.taps[j].position
    {
      var key := s.taps[i].key;
      assert KeyOk(s, key);
      assert s.taps[i] in s.taps && s.taps[j] in s.taps;
      OneOwner(s, Mark(s.taps[i].worker, key), Mark(s.taps[j].worker, key));
      PositionsIncrease(s.taps, key, i, j);
    }
    forall t | t in s.taps
      ensures t.key in s.table && t.position < |s.table[t.key].payload.messages|
    {
      var i :| 0 <= i < |s.taps| && s.taps[i] == t;
      assert KeyOk(s, t.key) && MarkOk(s, Mark(t.worker, t.key));
      PositionsIncrease(s.taps, t.key, i, 0);
    }
  }

  /** What a ledger row says about the phone: nothing was ever tapped for a key that has not
      crossed, and a `Sent` key had every message tapped once, in order, and confirmed. */
  lemma LedgerTruth(m: Mutex, es: seq<Event>, key: Key)
    ensures var s := Run(m, es);
      && (key !in s.table || s.table[key].status == Preparing || s.table[key].status == NotSubmitted ==>
            (forall t :: t in s.taps ==> t.key != key) && (forall t :: t in s.confirms ==> t.key != key))
      && PositionsOf(s.confirms, key) <= PositionsOf(s.taps, key)
      && (key in s.table && s.table[key].status == Sent ==>
            && PositionsOf(s.taps, key) == PositionsOf(s.confirms, key) == Upto(|s.table[key].payload.messages|)
            && s.table[key].result == Some(Receipt(true, |s.table[key].payload.messages|)))
  {
    RunInv(m, es);
    var s := Run(m, es);
    assert KeyOk(s, key);
    if key !in s.table || !Crossed(s.table[key].status) {
      UncrossedUntapped(s, key);
      NoPositionsNoTaps(s.taps, key);
      NoPositionsNoTaps(s.confirms, key);
    }
  }

  /** An event leaves the table alone or runs one of the ledger's transactions. */
  lemma EventTable(m: Mutex, s: State, e: Event)
    ensures var t := Apply(m, s, e).table;
      || t == s.table
      || (exists key, payload :: t == ClaimTable(s.table, key, payload, true))
      || (exists key :: CanMark(s.table, key) && t == MarkTable(s.table, key))
      || (exists key, status, result :: Final(status) && t == FinishTable(s.table, key, status, result))
  {}

  lemma EventEvolves(m: Mutex, s: State, e: Event)
    ensures Evolves(s.table, Apply(m, s, e).table)
  {
    EventTable(m, s, e);
    var t := Apply(m, s, e).table;
    if key, payload :| t == ClaimTable(s.table, key, payload, true) {
      ClaimEvolves(s.table, key, payload, true);
    } else if key, status, result :| Final(status) && t == FinishTable(s.table, key, status, result) {
      FinishEvolves(s.table, key, status, result);
    }
  }

  lemma StepEvolves(m: Mutex, t: Table, s: State, e: Event)
    requires Evolves(t, s.table)
    ensures Evolves(t, Apply(m, s, e).table)
  {
    EventEvolves(m, s, e);
    EvolvesTransitive(t, s.table, Apply(m, s, e).table);
  }

  /** Nothing that happens later can change a payload, uncross a row, or touch a final one. */
  lemma {:induction false} LedgerForever(m: Mutex, es: seq<Event>, more: seq<Event>)
    ensures Evolves(Run(m, es).table, Run(m, es + more).table)
    decreases |more|
  {
    if more == [] {
      assert es + more == es;
    } else {
      var front := more[..|more| - 1];
      LedgerForever(m, es, front);
      assert (es + more)[..|es + more| - 1] == es + front;
      StepEvolves(m, Run(m, es).table, Run(m, es + front), more[|more| - 1]);
    }
  }

  // ----- What the device lock adds -----

  predicate Active(me: Worker) {
    Holds(DeviceLock, me.phase)
  }

  /** A request that holds a claim and has not begun to submit. */
  predicate Unsubmitted(me: Worker) {
    !me.started && (me.phase.Composing? || me.phase.Failed?)
  }

  ghost predicate OneActive(s: State) {
    forall v, w :: v in s.workers && w in s.workers ==> Active(s.workers[v]) && Active(s.workers[w]) ==> v == w
  }

  ghost predicate NoneCrossed(s: State) {
    forall w :: w in s.workers ==> Unsubmitted(s.workers[w]) ==>
      s.workers[w].key in s.table && !Crossed(s.table[s.workers[w].key].status)
  }

  /** Under the device lock at most one request is active, and while it has not started to
      submit a claimed key, nobody has crossed the boundary for that key. */
  ghost predicate Exclusive(s: State) {
    OneActive(s) && NoneCrossed(s)
  }

  /** An event is the move of one active worker, the arrival of a new one, or nothing. */
  lemma OnlyTheActorMoves(m: Mutex, s: State, e: Event)
    ensures var s' := Apply(m, s, e);
      && (forall v :: v in s'.workers && v != e.w ==> v in s.workers && s'.workers[v] == s.workers[v])
      && (s' == s
          || (e.Arrive? && Free(m, s) && s'.table == s.table && e.w in s'.workers && s'.workers[e.w].phase.Waiting?)
          || (e.w in s.workers && Active(s.workers[e.w]) && e.w in s'.workers))
  {}

  lemma UnsubmittedUncrossed(s: State, e: Event)
    requires Inv(s) && Exclusive(s) && e.w in s.workers && e.w in Apply(DeviceLock, s, e).workers
    ensures var s' := Apply(DeviceLock, s, e); var me := s'.workers[e.w];
            Unsubmitted(me) ==> me.key in s'.table && !Crossed(s'.table[me.key].status)
  {
    assert WorkerOk(s, e.w);
  }

  lemma KeepOneActive(s: State, e: Event)
    requires OneActive(s)
    ensures OneActive(Apply(DeviceLock, s, e))
  {
    OnlyTheActorMoves(DeviceLock, s, e);
  }

  lemma OthersIdle(s: State, w: WorkerId)
    requires OneActive(s) && w in s.workers && Active(s.workers[w])
    ensures forall v :: v in s.workers && v != w ==> !Active(s.workers[v])
  {}

  lemma KeepNoneCrossed(s: State, e: Event)
    requires Inv(s) && Exclusive(s)
    ensures NoneCrossed(Apply(DeviceLock, s, e))
  {
    var s' := Apply(DeviceLock, s, e);
    OnlyTheActorMoves(DeviceLock, s, e);
    if s' != s && e.w in s.workers {
      UnsubmittedUncrossed(s, e);
      OthersIdle(s, e.w);
    }
  }

  lemma KeepExclusive(s: State, e: Event)
    requires Inv(s) && Exclusive(s)
    ensures Exclusive(Apply(DeviceLock, s, e))
  {
    KeepOneActive(s, e);
    KeepNoneCrossed(s, e);
  }

  lemma {:induction false} RunExclusive(es: seq<Event>)
    ensures Exclusive(Run(DeviceLock, es))
  {
    if es != [] {
      RunInv(DeviceLock, es[..|es| - 1]);
      RunExclusive(es[..|es| - 1]);
      KeepExclusive(Run(DeviceLock, es[..|es| - 1]), es[|es| - 1]);
    }
  }

  ghost predicate Untapped(s: State, key: Key) {
    forall t :: t in s.taps ==> t.key != key
  }

  /** In `s`, writing down the end of request `w` answers `safe_to_retry=true`. */
  predicate RetryReply(m: Mutex, s: State, w: WorkerId, outcome: Outcome) {
    && w in s.workers && s.workers[w].phase.Failed?
    && Apply(m, s, Finish(w, outcome)).workers[w].phase == Replied(SafeToRetry)
  }

  lemma RetryStateSafe(s: State, w: WorkerId, outcome: Outcome)
    requires Inv(s) && Exclusive(s) && RetryReply(DeviceLock, s, w, outcome)
    ensures var me := s.workers[w]; var t := Apply(DeviceLock, s, Finish(w, outcome));
      && Untapped(s, me.key) && t.taps == s.taps
      && (outcome.Happened() ==> ClaimPhaseOf(t.table, me.key, me.payload, true) == Claimed)
  {
    assert WorkerOk(s, w);
    UncrossedUntapped(s, s.workers[w].key);
    NoPositionsNoTaps(s.taps, s.workers[w].key);
  }

  /** Under the device lock a reply that permits a retry is given only while no message of
      that key has ever been tapped. */
  lemma SafeToRetryIsSafe(es: seq<Event>, w: WorkerId, outcome: Outcome)
    requires RetryReply(DeviceLock, Run(DeviceLock, es), w, outcome)
    ensures Untapped(Run(DeviceLock, es + [Finish(w, outcome)]), Run(DeviceLock, es).workers[w].key)
    ensures Untapped(Run(DeviceLock, es), Run(DeviceLock, es).workers[w].key)
    ensures outcome.Happened() ==>
              var me := Run(DeviceLock, es).workers[w];
              ClaimPhaseOf(Run(DeviceLock, es + [Finish(w, outcome)]).table, me.key, me.payload, true) == Claimed
  {
    RunInv(DeviceLock, es);
    RunExclusive(es);
    assert (es + [Finish(w, outcome)])[..|es|] == es;
    RetryStateSafe(Run(DeviceLock, es), w, outcome);
  }

  ghost predicate Reachable(m: Mutex, s: State) {
    exists es :: Run(m, es) == s
  }

  ghost predicate RetryAlwaysSafe(m: Mutex) {
    forall s, w, outcome :: Reachable(m, s) && RetryReply(m, s, w, outcome) ==> Untapped(s, s.workers[w].key)
  }

  lemma StepTo(m: Mutex, s: State, e: Event, s': State)
    requires Reachable(m, s) && Apply(m, s, e) == s'
    ensures Reachable(m, s')
  {
    var es :| Run(m, es) == s;
    assert (es + [e])[..|es|] == es;
    assert Run(m, es + [e]) == s';
  }

  function GivenUp(key: Key, payload: Payload): State {
    State(map[key := Row(payload, Preparing, None)], map[1 := Worker(key, payload, false, 0, Failed)], [], [], [])
  }

  function SecondAt(key: Key, payload: Payload, started: bool, phase: Phase): State {
    var first := GivenUp(key, payload);
    first.(workers := first.workers[2 := Worker(key, payload, started, 0, phase)])
  }

  function FirstAt(table: Table, key: Key, payload: Payload, phase: Phase): State {
    State(table, map[1 := Worker(key, payload, false, 0, phase)], [], [], [])
  }

  lemma FirstWaits(m: Mutex, key: Key, payload: Payload)
    requires payload.messages != []
    ensures Reachable(m, FirstAt(map[], key, payload, Waiting))
  {
    assert Run(m, []) == INITIAL;
    StepTo(m, INITIAL, Arrive(1, key, payload), FirstAt(map[], key, payload, Waiting));
  }

  lemma FirstComposes(m: Mutex, key: Key, payload: Payload)
    requires payload.messages != []
    ensures Reachable(m, FirstAt(map[key := Row(payload, Preparing, None)], key, payload, Composing(0)))
  {
    FirstWaits(m, key, payload);
    StepTo(m, FirstAt(map[], key, payload, Waiting), Claim(1, Done),
           FirstAt(map[key := Row(payload, Preparing, None)], key, payload, Composing(0)));
  }

  lemma FirstGivesUp(m: Mutex, key: Key, payload: Payload)
    requires payload.messages != []
    ensures Reachable(m, GivenUp(key, payload))
  {
    FirstComposes(m, key, payload);
    StepTo(m, FirstAt(map[key := Row(payload, Preparing, None)], key, payload, Composing(0)), Raise(1),
           GivenUp(key, payload));
  }

  lemma SecondWaits(m: Mutex, key: Key, payload: Payload)
    requires m != DeviceLock && payload.messages != []
    ensures Reachable(m, SecondAt(key, payload, false, Waiting))
  {
    FirstGivesUp(m, key, payload);
    StepTo(m, GivenUp(key, payload), Arrive(2, key, payload), SecondAt(key, payload, false, Waiting));
  }

  /** Moving the second worker on is all that happens to the state. */
  lemma SecondMoves(key: Key, payload: Payload, started: bool, phase: Phase, phase': Phase)
    ensures At(SecondAt(key, payload, started, phase), 2, phase') == SecondAt(key, payload, started, phase')
  {}

  lemma SecondComposes(m: Mutex, key: Key, payload: Payload)
    requires m != DeviceLock && payload.messages != []
    ensures Reachable(m, SecondAt(key, payload, false, Composing(0)))
  {
    SecondWaits(m, key, payload);
    var a := SecondAt(key, payload, false, Waiting);
    assert ClaimTable(a.table, key, payload, true) == a.table;
    SecondMoves(key, payload, false, Waiting, Composing(0));
    StepTo(m, a, Claim(2, Done), SecondAt(key, payload, false, Composing(0)));
  }

  lemma SecondSubmits(m: Mutex, key: Key, payload: Payload)
    requires m != DeviceLock && payload.messages != []
    ensures Reachable(m, SecondAt(key, payload, true, Checkpoint(0)))
  {
    SecondComposes(m, key, payload);
    StepTo(m, SecondAt(key, payload, false, Composing(0)), Submit(2), SecondAt(key, payload, true, Checkpoint(0)));
  }

  function SecondCrossed(key: Key, payload: Payload, phase: Phase, taps: seq<Tap>): State {
    SecondAt(key, payload, true, phase).(
      table := map[key := Row(payload, Dispatching, None)], marks := [Mark(2, key)], taps := taps)
  }

  lemma SecondArmed(m: Mutex, key: Key, payload: Payload)
    requires m != DeviceLock && payload.messages != []
    ensures Reachable(m, SecondCrossed(key, payload, Armed(0), []))
  {
    SecondSubmits(m, key, payload);
    StepTo(m, SecondAt(key, payload, true, Checkpoint(0)), Checkpointed(2, Done),
           SecondCrossed(key, payload, Armed(0), []));
  }

  /** The phone lease alone does not give that: it is released before the failure is written
      down, so a second process can claim, cross and tap before the first one is told that
      it may retry. */
  lemma LeaseAloneIsNotEnough(m: Mutex, key: Key, payload: Payload) returns (s: State)
    requires m != DeviceLock && payload.messages != []
    ensures Reachable(m, s) && 1 in s.workers && s.workers[1].key == key
    ensures RetryReply(m, s, 1, Done) && Tap(2, key, 0) in s.taps
  {
    SecondArmed(m, key, payload);
    s := SecondCrossed(key, payload, Tapped(0), [Tap(2, key, 0)]);
    StepTo(m, SecondCrossed(key, payload, Armed(0), []), TapSend(2, Done), s);
  }

  /** The promise behind `safe_to_retry` holds in every run exactly under the device lock. */
  lemma RetrySafeIffDeviceLock(m: Mutex)
    ensures RetryAlwaysSafe(m) <==> m == DeviceLock
  {
    if m == DeviceLock {
      forall s, w, outcome | Reachable(m, s) && RetryReply(m, s, w, outcome)
        ensures Untapped(s, s.workers[w].key)
      {
        var es :| Run(m, es) == s;
        SafeToRetryIsSafe(es, w, outcome);
      }
    } else {
      var s := LeaseAloneIsNotEnough(m, "k", Payload("d", "r", ["hello"]));
      assert !Untapped(s, "k");
    }
  }

  // ----- What the recorded receipts say, under the device lock -----

  /** An active request past its claim still owns the row, and its count is what it has confirmed. */
  ghost predicate OwnerOk(s: State, w: WorkerId)
    requires w in s.workers
  {
    var me := s.workers[w];
    Active(me) && !me.phase.Waiting? ==>
      && me.key in s.table
      && (|| (s.table[me.key].status == Preparing && me.confirmed == 0)
          || (s.table[me.key].status == Dispatching && Marked(s, w, me.key)))
  }

  /** A recorded outcome counts exactly the confirmed messages and claims success only for `Sent`. */
  ghost predicate ReceiptOk(s: State, key: Key) {
    key in s.table && Final(s.table[key].status) ==>
      && s.table[key].result == Some(Receipt(s.table[key].status == Sent, |PositionsOf(s.confirms, key)|))
  }

  ghost predicate Truthful(s: State) {
    (forall w :: w in s.workers ==> OwnerOk(s, w)) && (forall key :: ReceiptOk(s, key))
  }

  lemma ActorOwns(s: State, e: Event)
    requires Inv(s) && Exclusive(s) && Truthful(s)
    requires e.w in s.workers && e.w in Apply(DeviceLock, s, e).workers
    ensures OwnerOk(Apply(DeviceLock, s, e), e.w)
  {
    assert WorkerOk(s, e.w) && OwnerOk(s, e.w);
  }

  lemma KeepOwners(s: State, e: Event)
    requires Inv(s) && Exclusive(s) && Truthful(s)
    ensures var s' := Apply(DeviceLock, s, e); forall w :: w in s'.workers ==> OwnerOk(s', w)
  {
    var s' := Apply(DeviceLock, s, e);
    OnlyTheActorMoves(DeviceLock, s, e);
    if s' != s {
      forall w | w in s'.workers ensures OwnerOk(s', w) {
        if w == e.w && w in s.workers { ActorOwns(s, e); }
      }
    }
  }

  lemma FinishReceipt(s: State, w: WorkerId, outcome: Outcome, key: Key)
    requires Inv(s) && Truthful(s) && w in s.workers
    requires s.workers[w].phase.AllConfirmed? || s.workers[w].phase.Failed?
    ensures ReceiptOk(StepFinish(s, w, outcome), key)
  {
    var me := s.workers[w];
    assert WorkerOk(s, w) && OwnerOk(s, w) && ReceiptOk(s, key);
    if Marked(s, w, me.key) { assert MarkOk(s, Mark(w, me.key)); }
    if s.table[me.key].status == Preparing { UncrossedUntapped(s, me.key); }
  }

  lemma ConfirmReceipt(s: State, w: WorkerId, key: Key)
    requires Inv(s) && Truthful(s) && w in s.workers && s.workers[w].phase.Tapped?
    ensures ReceiptOk(StepConfirm(s, w), key)
  {
    var me := s.workers[w];
    assert WorkerOk(s, w) && OwnerOk(s, w) && ReceiptOk(s, key);
    PositionsSnoc(s.confirms, Tap(w, me.key, me.phase.next), key);
  }

  lemma KeepReceipts(s: State, e: Event, key: Key)
    requires Inv(s) && Exclusive(s) && Truthful(s)
    ensures ReceiptOk(Apply(DeviceLock, s, e), key)
  {
    assert ReceiptOk(s, key);
    if e.Finish? && e.w in s.workers && (s.workers[e.w].phase.AllConfirmed? || s.workers[e.w].phase.Failed?) {
      FinishReceipt(s, e.w, e.outcome, key);
    } else if e.Confirm? && e.w in s.workers && s.workers[e.w].phase.Tapped? {
      ConfirmReceipt(s, e.w, key);
    }
  }

  lemma {:induction false} RunTruthful(es: seq<Event>)
    ensures Truthful(Run(DeviceLock, es))
  {
    if es != [] {
      var s, e := Run(DeviceLock, es[..|es| - 1]), es[|es| - 1];
      RunInv(DeviceLock, es[..|es| - 1]);
      RunExclusive(es[..|es| - 1]);
      RunTruthful(es[..|es| - 1]);
      KeepOwners(s, e);
      forall key ensures ReceiptOk(Run(DeviceLock, es), key) { KeepReceipts(s, e, key); }
    }
  }

  /** Under the device lock a recorded outcome tells exactly how many messages were confirmed, and
      whether that was all of them. */
  lemma ReceiptTruth(es: seq<Event>, key: Key)
    ensures var s := Run(DeviceLock, es);
      key in s.table && Final(s.table[key].status) ==>
        s.table[key].result == Some(Receipt(s.table[key].status == Sent, |PositionsOf(s.confirms, key)|))
  {
    RunTruthful(es);
    assert ReceiptOk(Run(DeviceLock, es), key);
  }

  /** Under the device lock a request that fails after submission began is recorded as uncertain and
      answered so; no later request of that key is admitted. */
  lemma StartedNeedsReconciliation(es: seq<Event>, w: WorkerId, outcome: Outcome)
    requires var s := Run(DeviceLock, es); w in s.workers && s.workers[w].phase.Failed? && s.workers[w].started
    requires outcome.Happened()
    ensures var s := Run(DeviceLock, es); var me := s.workers[w];
            var t := Run(DeviceLock, es + [Finish(w, outcome)]);
            && w in t.workers && t.workers[w].phase == Replied(NeedsReconciliation)
            && me.key in t.table && t.table[me.key].status == SubmissionUnknown
            && forall payload :: ClaimPhaseOf(t.table, me.key, payload, true) != Claimed
  {
    var s := Run(DeviceLock, es);
    RunInv(DeviceLock, es);
    RunTruthful(es);
    assert (es + [Finish(w, outcome)])[..|es|] == es;
    assert WorkerOk(s, w) && OwnerOk(s, w);
  }

  /** Under the device lock a request that has confirmed every message is recorded as sent, and is
      answered as delivered exactly if that write was acknowledged. */
  lemma DeliveredIsRecorded(es: seq<Event>, w: WorkerId, outcome: Outcome)
    requires var s := Run(DeviceLock, es); w in s.workers && s.workers[w].phase.AllConfirmed?
    ensures var me := Run(DeviceLock, es).workers[w];
            var t := Run(DeviceLock, es + [Finish(w, outcome)]);
            && w in t.workers && (t.workers[w].phase == Replied(Delivered) <==> outcome.Done?)
            && (outcome.Happened() ==>
                  && me.key in t.table
                  && t.table[me.key] == Row(me.payload, Sent, Some(Receipt(true, |me.payload.messages|))))
  {
    var s := Run(DeviceLock, es);
    RunInv(DeviceLock, es);
    RunTruthful(es);
    assert (es + [Finish(w, outcome)])[..|es|] == es;
    assert WorkerOk(s, w) && OwnerOk(s, w);
  }

  // ----- A request without faults is delivered -----

  function TapsOf(key: Key, n: nat): seq<Tap> {
    seq(n, i requires 0 <= i < n => Tap(1, key, i))
  }

  /** Worker 1 alone, past its checkpoint, with `i` messages confirmed and `n` tapped. */
  function Sending(key: Key, payload: Payload, i: nat, n: nat, phase: Phase): State {
    State(map[key := Row(payload, Dispatching, None)], map[1 := Worker(key, payload, true, i, phase)],
          [Mark(1, key)], TapsOf(key, n), TapsOf(key, i))
  }

  lemma FirstArmed(key: Key, payload: Payload)
    requires payload.messages != []
    ensures Reachable(DeviceLock, Sending(key, payload, 0, 0, Armed(0)))
  {
    FirstComposes(DeviceLock, key, payload);
    var a := FirstAt(map[key := Row(payload, Preparing, None)], key, payload, Composing(0));
    var b := a.(workers := map[1 := Worker(key, payload, true, 0, Checkpoint(0))]);
    StepTo(DeviceLock, a, Submit(1), b);
    assert Apply(DeviceLock, b, Checkpointed(1, Done)) == Sending(key, payload, 0, 0, Armed(0));
    StepTo(DeviceLock, b, Checkpointed(1, Done), Sending(key, payload, 0, 0, Armed(0)));
  }

  lemma {:induction false} ReachesArmed(key: Key, payload: Payload, i: nat)
    requires i < |payload.messages|
    ensures Reachable(DeviceLock, Sending(key, payload, i, i, Armed(i)))
    decreases i, 0
  {
    if i == 0 {
      FirstArmed(key, payload);
    } else {
      ReachesConfirmed(key, payload, i - 1);
      StepTo(DeviceLock, Sending(key, payload, i, i, Composing(i)), Submit(1), Sending(key, payload, i, i, Armed(i)));
    }
  }

  lemma {:induction false} ReachesTapped(key: Key, payload: Payload, i: nat)
    requires i < |payload.messages|
    ensures Reachable(DeviceLock, Sending(key, payload, i, i + 1, Tapped(i)))
    decreases i, 1
  {
    ReachesArmed(key, payload, i);
    assert TapsOf(key, i) + [Tap(1, key, i)] == TapsOf(key, i + 1);
    StepTo(DeviceLock, Sending(key, payload, i, i, Armed(i)), TapSend(1, Done),
           Sending(key, payload, i, i + 1, Tapped(i)));
  }

  lemma {:induction false} ReachesConfirmed(key: Key, payload: Payload, i: nat)
    requires i < |payload.messages|
    ensures var phase := if i + 1 < |payload.messages| then Composing(i + 1) else AllConfirmed;
            Reachable(DeviceLock, Sending(key, payload, i + 1, i + 1, phase))
    decreases i, 2
  {
    ReachesTapped(key, payload, i);
    assert TapsOf(key, i) + [Tap(1, key, i)] == TapsOf(key, i + 1);
    var phase := if i + 1 < |payload.messages| then Composing(i + 1) else AllConfirmed;
    StepTo(DeviceLock, Sending(key, payload, i, i + 1, Tapped(i)), Confirm(1),
           Sending(key, payload, i + 1, i + 1, phase));
  }

  /** The protocol does send: without faults every message is tapped once and the row ends `Sent`. */
  lemma FaultFreeDelivers(key: Key, payload: Payload) returns (s: State)
    requires payload.messages != []
    ensures Reachable(DeviceLock, s) && 1 in s.workers && s.workers[1].phase == Replied(Delivered)
    ensures s.table == map[key := Row(payload, Sent, Some(Receipt(true, |payload.messages|)))]
    ensures s.taps == s.confirms == TapsOf(key, |payload.messages|)
  {
    var n := |payload.messages|;
    ReachesConfirmed(key, payload, n - 1);
    var before := Sending(key, payload, n, n, AllConfirmed);
    s := Apply(DeviceLock, before, Finish(1, Done));
    StepTo(DeviceLock, before, Finish(1, Done), s);
  }
}
