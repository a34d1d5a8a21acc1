/** The sender process itself: warm Appium session, phone lease, idle timer and one request
    at a time under the device lock (sender_agent/app.py, sender_agent/device_lease.py and
    `send_text_messages` in wechat_sender/appium_text_sender.py). */
module SenderAgent {
  import opened Effects
  import opened Ledger

  type Session = nat

  /** The call sites of `send_text_messages` and `send_message`, each reached at most once. */
  datatype Site =
    | WarmReady | WarmGoBack | WarmReadyAgain
    | Cleanup | Launch | LaunchReady | CloseLaunched
    | Relaunch | RelaunchReady | RelaunchGoBack | RelaunchReadyAgain
    | Navigate | TidyUp

  /** What the phone does at each message: typed, checkpoint, tap, confirmation. */
  datatype Try = Try(typed: bool, mark: Outcome, tap: Outcome, confirmed: bool)

  /** Everything outside this process during one request; `valid` is `_validate_send_request`. */
  datatype World = World(valid: bool, at: Site -> Answer, message: nat -> Try)

  /** A message that is typed, tapped without error and confirmed. */
  predicate Goes(step: Try) {
    step.typed && !step.tap.Raised() && step.confirmed
  }

  /** Every message goes, and the checkpoint before the first is acknowledged. */
  ghost predicate AllGo(world: World, n: nat, canMark: bool) {
    && (forall i :: 0 <= i < n ==> Goes(world.message(i)))
    && (n > 0 ==> world.message(0).mark.Done? && canMark)
  }

  /** The warm operator is looked at, sent back to the chats once, looked at again. */
  predicate StillRaises(world: World) {
    || world.at(WarmReady).Raises?
    || (world.at(WarmReady).No? && world.at(WarmGoBack).Raises?)
    || world.at(WarmReadyAgain).Raises?
  }

  predicate WarmWorks(existing: Option<Session>, world: World) {
    existing.Some? && !StillRaises(world) && world.at(WarmReadyAgain).Yes?
  }

  /** A new session becomes ready: at once, or after one forced restart. */
  predicate LaunchWorks(world: World) {
    && !world.at(Launch).Raises?
    && (|| world.at(LaunchReady).Yes?
        || (&& world.at(LaunchReady).No? && !world.at(CloseLaunched).Raises? && !world.at(Relaunch).Raises?
            && !world.at(RelaunchReady).Raises?
            && (world.at(RelaunchReady).No? ==> !world.at(RelaunchGoBack).Raises?)
            && world.at(RelaunchReadyAgain).Yes?))
  }

  /** Some session gets ready to send. */
  predicate SessionWorks(existing: Option<Session>, preflight: bool, world: World) {
    || WarmWorks(existing, world)
    || ((existing.Some? ==> !StillRaises(world)) && (preflight ==> !world.at(Cleanup).Raises?) && LaunchWorks(world))
  }

  function Same(session: Session, n: nat): seq<Session> {
    seq(n, _ => session)
  }

  /** The first message was typed, which is when submission starts. */
  predicate Typed(existing: Option<Session>, preflight: bool, world: World) {
    world.valid && SessionWorks(existing, preflight, world) && world.at(Navigate).Yes? && world.message(0).typed
  }

  ghost predicate Fine(world: World, n: nat, canMark: bool) {
    world.valid && (forall s :: world.at(s).Yes?) && AllGo(world, n, canMark)
  }

  datatype SendOutcome = Returned(operator: Option<Session>) | Raised

  datatype Reply =
    | Misconfigured | Forbidden | DeviceBusy | LedgerDown | KeyConflict
    | Cached(result: Option<Receipt>)
    | Delivered(count: nat)
    | SafeToRetry
    | NeedsReconciliation

  function AsSet(s: Option<Session>): set<Session> {
    match s case None => {} case Some(x) => {x}
  }

  /** `SendProgress`: what this request knows about its own submission. */
  class SendProgress {
    var started: bool
    var confirmed: nat
    var cleanupFailed: bool

    constructor ()
      ensures !started && confirmed == 0 && !cleanupFailed
    {
      started, confirmed, cleanupFailed := false, 0, false;
    }

    /** Once per request: memory first, then the durable checkpoint, which may fail either way. */
    method Submitting(ledger: SenderLedger, key: Key, mark: Outcome) returns (raised: bool)
      modifies `started, ledger
      ensures started
      ensures old(started) ==> !raised && ledger.rows == old(ledger.rows)
      ensures !old(started) ==> (raised <==> !mark.Done? || !CanMark(old(ledger.rows), key))
      ensures !old(started) && !raised ==> ledger.rows == MarkTable(old(ledger.rows), key)
      ensures ledger.rows == old(ledger.rows)
           || (CanMark(old(ledger.rows), key) && ledger.rows == MarkTable(old(ledger.rows), key))
    {
      raised := false;
      if !started {
        started := true;
        var acknowledged := true;
        if mark.Happened() {
          acknowledged := ledger.MarkSubmitting(key);
        }
        raised := !acknowledged || mark.Raised();
      }
    }
  }

  /** The phone and its kernel lock. `created` and `closed` record every session created and
      every session on which `close` was called; `taps` records irreversible sends, and `through`
      the session each of them went through. */
  class Phone {
    var created: set<Session>
    var closed: set<Session>
    var lease: bool
    var taps: seq<nat>
    ghost var through: seq<Session>
    var next: Session
    ghost var droppedOpen: bool  // the lease was once released while a session was open

    ghost predicate Valid()
      reads this
    {
      forall s :: s in created ==> s < next
    }

    function Open(): set<Session>
      reads this
    {
      created - closed
    }

    constructor ()
      ensures Valid() && Open() == {} && !lease && !droppedOpen
    {
      created, closed, lease, taps, next, droppedOpen := {}, {}, false, [], 0, false;
    }

    method NewSession() returns (s: Session)
      requires Valid()
      modifies `created, `closed, `next
      ensures Valid() && s !in old(created) && Open() == old(Open()) + {s} && created == old(created) + {s}
    {
      s := next;
      created, closed, next := created + {s}, closed - {s}, next + 1;
    }

    method Close(s: Session)
      modifies `closed
      ensures closed == old(closed) + {s}
    {
      closed := closed + {s};
    }

    method ReleaseLease()
      modifies `lease, `droppedOpen
      ensures !lease && droppedOpen == (old(droppedOpen) || Open() != {})
    {
      droppedOpen := droppedOpen || Open() != {};
      lease := false;
    }
  }

  /** The send loop: each message is typed, then the checkpoint is crossed once, then the
      button is tapped once, then the empty input confirms it; the first failure ends it. */
  method SendMessages(phone: Phone, session: Session, ledger: SenderLedger, progress: SendProgress, key: Key, n: nat,
                      world: World)
    returns (ok: bool)
    requires !progress.started && progress.confirmed == 0 && session in phone.Open()
    modifies phone`taps, phone`through, ledger, progress`started, progress`confirmed
    ensures |phone.taps| >= |old(phone.taps)|
    ensures var done := |phone.taps| - |old(phone.taps)|;
            && phone.taps == old(phone.taps) + Upto(done)
            && phone.through == old(phone.through) + Same(session, done)
            && progress.confirmed <= done <= progress.confirmed + 1 && done <= n
            && (ok ==> done == n && progress.confirmed == n)
            && (done > 0 ==> progress.started && CanMark(old(ledger.rows), key)
                             && ledger.rows == MarkTable(old(ledger.rows), key))
    ensures progress.started <==> n > 0 && world.message(0).typed
    ensures ok <==> AllGo(world, n, CanMark(old(ledger.rows), key))
    ensures ledger.rows == old(ledger.rows)
         || (progress.started && CanMark(old(ledger.rows), key) && ledger.rows == MarkTable(old(ledger.rows), key))
  {
    ok := true;
    var i := 0;
    ghost var before, through := phone.taps, phone.through;
    while i < n && ok
      invariant 0 <= i <= n
      invariant ok ==> progress.confirmed == i && phone.taps == before + Upto(i)
      invariant !ok ==> exists done :: progress.confirmed <= done <= progress.confirmed + 1 && done <= n
                                       && phone.taps == before + Upto(done)
      invariant |phone.taps| >= |before| && phone.through == through + Same(session, |phone.taps| - |before|)
      invariant ok ==> (progress.started <==> i > 0)
      invariant i > 0 ==> world.message(0).typed
      invariant !ok ==> (progress.started <==> world.message(0).typed)
      invariant ok ==> AllGo(world, i, CanMark(old(ledger.rows), key))
      invariant !ok ==> !AllGo(world, n, CanMark(old(ledger.rows), key))
      invariant phone.taps != before ==> progress.started && CanMark(old(ledger.rows), key)
                                         && ledger.rows == MarkTable(old(ledger.rows), key)
      invariant ok && progress.started ==>
        CanMark(old(ledger.rows), key) && ledger.rows == MarkTable(old(ledger.rows), key)
      invariant ledger.rows == old(ledger.rows)
             || (progress.started && CanMark(old(ledger.rows), key) && ledger.rows == MarkTable(old(ledger.rows), key))
      decreases n - i, ok
    {
      var step := world.message(i);
      ok := step.typed;
      if ok {
        var raised := progress.Submitting(ledger, key, step.mark);
        ok := !raised;
      }
      if !ok {
        assert phone.taps == before + Upto(i);
        break;
      }
      if step.tap.Happened() {
        phone.taps, phone.through := phone.taps + [i], phone.through + [session];
        assert phone.taps == before + Upto(i + 1);
      }
      ok := !step.tap.Raised() && step.confirmed;
      if ok {
        progress.confirmed := progress.confirmed + 1;
        i := i + 1;
      }
    }
  }

  /** `send_text_messages`: whatever happens after validation, every session supplied or opened has
      been closed except the one handed back. A request that fails validation is refused before the
      cleanup scope, and then exactly the supplied session is left to the caller. */
  method SendTextMessages(phone: Phone, ledger: SenderLedger, progress: SendProgress, key: Key, n: nat,
                          existing: Option<Session>, preflight: bool, closeOperator: bool, world: World)
    returns (r: SendOutcome, ghost used: Option<Session>)
    requires phone.Valid() && phone.Open() == AsSet(existing)
    requires !progress.started && progress.confirmed == 0 && !progress.cleanupFailed && n > 0
    modifies phone`created, phone`closed, phone`next, phone`taps, phone`through, ledger, progress
    ensures phone.Valid()
    ensures phone.Open() == if r.Returned? then AsSet(r.operator) else if world.valid then {} else AsSet(existing)
    ensures closeOperator && r.Returned? ==> r.operator.None?
    ensures r.Returned? <==>
              && world.valid && SessionWorks(existing, preflight, world) && world.at(Navigate).Yes?
              && AllGo(world, n, CanMark(old(ledger.rows), key))
    ensures r.Returned? ==> used.Some? && r.operator == if closeOperator || !world.at(TidyUp).Yes? then None else used
    ensures progress.started <==> used.Some? && world.message(0).typed
    ensures used.Some? <==> world.valid && SessionWorks(existing, preflight, world) && world.at(Navigate).Yes?
    ensures used.Some? && WarmWorks(existing, world) ==> used == existing && phone.created == old(phone.created)
    ensures used.Some? && !WarmWorks(existing, world) ==>
              used.value !in old(phone.created) && used.value in phone.created && AsSet(existing) <= phone.closed
    ensures |phone.taps| >= |old(phone.taps)|
    ensures var done := |phone.taps| - |old(phone.taps)|;
            && phone.taps == old(phone.taps) + Upto(done)
            && phone.through == old(phone.through) + (if used.Some? then Same(used.value, done) else [])
            && (used.None? ==> done == 0)
            && (r.Returned? ==> done == n && progress.confirmed == n && progress.started)
            && progress.confirmed <= done <= progress.confirmed + 1 && done <= n
            && (done > 0 ==> progress.started && CanMark(old(ledger.rows), key)
                             && ledger.rows == MarkTable(old(ledger.rows), key))
    ensures ledger.rows == old(ledger.rows)
         || (progress.started && CanMark(old(ledger.rows), key) && ledger.rows == MarkTable(old(ledger.rows), key))
  {
    var operator: Option<Session> := None;
    var failed := true;
    r, used := Raised, None;
    if !world.valid { return; }
    label attempt: {
      var ready;
      operator, ready := Prepare(phone, existing, preflight, world);
      if !ready { break attempt; }
      if !world.at(Navigate).Yes? { break attempt; }
      used := operator;
      var sent := SendMessages(phone, operator.value, ledger, progress, key, n, world);
      if !sent { break attempt; }
      progress.cleanupFailed := !world.at(TidyUp).Yes?;
      failed := progress.cleanupFailed;
      r := Returned(if closeOperator || failed then None else operator);
    }
    if operator.Some? && (closeOperator || failed) {
      phone.Close(operator.value);
    }
  }

  /** A session that can send: the warm one if it still can, else a new one. `operator` is the
      session the caller still has to answer for. */
  method Prepare(phone: Phone, existing: Option<Session>, preflight: bool, world: World)
    returns (operator: Option<Session>, ready: bool)
    requires phone.Valid() && phone.Open() == AsSet(existing)
    modifies phone`created, phone`closed, phone`next
    ensures phone.Valid() && phone.Open() <= AsSet(operator)
    ensures ready <==> SessionWorks(existing, preflight, world)
    ensures ready ==> operator.Some? && phone.Open() == AsSet(operator)
    ensures ready && WarmWorks(existing, world) ==> operator == existing && phone.created == old(phone.created)
    ensures ready && !WarmWorks(existing, world) ==>
              && operator.value !in old(phone.created) && operator.value in phone.created
              && AsSet(existing) <= phone.closed
  {
    operator := Reuse(phone, existing, world);
    ready := false;
    if existing.Some? && operator.Some? && StillRaises(world) { return; }
    if operator.Some? { return operator, true; }
    if preflight && world.at(Cleanup).Raises? { return; }
    operator, ready := Start(phone, world);
  }

  /** A warm operator that cannot send is closed and given up; one whose look raises is kept
      for the caller's cleanup. */
  method Reuse(phone: Phone, existing: Option<Session>, world: World) returns (operator: Option<Session>)
    modifies phone`closed
    ensures operator == if StillRaises(world) || world.at(WarmReadyAgain).Yes? then existing else None
    ensures phone.closed == if operator == existing then old(phone.closed) else old(phone.closed) + AsSet(existing)
  {
    operator := existing;
    if existing.Some? && !StillRaises(world) && world.at(WarmReadyAgain).No? {
      phone.Close(existing.value);
      operator := None;
    }
  }

  /** Launch without forcing the app, and once more with force if it is not ready. `operator`
      is the session the caller still has to answer for. */
  method Start(phone: Phone, world: World) returns (operator: Option<Session>, ready: bool)
    requires phone.Valid() && phone.Open() == {}
    modifies phone`created, phone`closed, phone`next
    ensures phone.Valid()
    ensures phone.Open() <= AsSet(operator)
    ensures ready ==> operator.Some? && phone.Open() == AsSet(operator)
    ensures ready <==> LaunchWorks(world)
    ensures operator.Some? ==> operator.value !in old(phone.created) && operator.value in phone.created
    ensures old(phone.created) <= phone.created && old(phone.closed) * old(phone.created) <= phone.closed
  {
    operator, ready := None, false;
    if world.at(Launch).Raises? { return; }
    var first := phone.NewSession();
    operator := Some(first);
    match world.at(LaunchReady) {
      case Yes => ready := true;
      case Raises =>
      case No =>
        phone.Close(first);
        if world.at(CloseLaunched).Raises? { return; }
        operator := None;
        if world.at(Relaunch).Raises? { return; }
        var second := phone.NewSession();
        operator := Some(second);
        if world.at(RelaunchReady).Raises? { return; }
        if world.at(RelaunchReady).No? && world.at(RelaunchGoBack).Raises? { return; }
        ready := world.at(RelaunchReadyAgain).Yes?;
    }
  }

  /** What a reply promises about the ledger and the phone, given both before the request. */
  ghost predicate Answered(key: Key, payload: Payload, reply: Reply,
                           rows: Table, rows': Table, taps: seq<nat>, taps': seq<nat>) {
    && Evolves(rows, rows')
    && (forall k :: k != key && k in rows' ==> k in rows && rows'[k] == rows[k])
    && |taps| <= |taps'|
    && var done := |taps'| - |taps|;
       && taps' == taps + Upto(done) && done <= |payload.messages|
       && (done > 0 ==>
             && key in rows' && rows'[key].payload == payload && Crossed(rows'[key].status)
             && (key in rows ==> rows[key].payload == payload && !Crossed(rows[key].status)))
       && (reply.SafeToRetry? ==>
             done == 0 && key in rows' && rows'[key] == Row(payload, NotSubmitted, Some(Receipt(false, 0))))
       && (reply.Delivered? ==>
             && done == |payload.messages| == reply.count
             && key in rows' && rows'[key] == Row(payload, Sent, Some(Receipt(true, reply.count))))
       && (reply.Cached? ==>
             && done == 0 && rows' == rows && key in rows
             && rows[key].payload == payload && rows[key].status == Sent && reply.result == rows[key].result)
       && (reply.KeyConflict? ==> done == 0 && rows' == rows && key in rows && rows[key].payload != payload)
       && (reply.DeviceBusy? || reply.Misconfigured? || reply.Forbidden? ==> done == 0 && rows' == rows)
       && (reply.LedgerDown? ==> done == 0)
  }

  /** A reply that asks the caller to wait, to look or to reconcile has a reason. */
  ghost predicate Justified(key: Key, payload: Payload, reply: Reply, rows': Table,
                            lease: Answer, claim: Outcome, finish: Outcome) {
    && (reply.DeviceBusy? ==> lease.No?)
    && (reply.LedgerDown? ==> claim.Raised())
    && (reply.NeedsReconciliation? ==>
          || lease.Raises? || finish.Raised()
          || (&& key in rows' && rows'[key].payload == payload
              && (rows'[key].status == Dispatching || rows'[key].status == SubmissionUnknown)))
  }

  /** A promise made against the freshly claimed table also holds against the table before the claim. */
  lemma AnsweredAfterClaim(key: Key, payload: Payload, reply: Reply, rows: Table, claimed: Table, rows': Table,
                           taps: seq<nat>, taps': seq<nat>)
    requires ClaimPhaseOf(rows, key, payload, true) == Claimed && claimed == ClaimTable(rows, key, payload, true)
    requires reply.Delivered? || reply.SafeToRetry? || reply.NeedsReconciliation?
    requires Answered(key, payload, reply, claimed, rows', taps, taps')
    ensures Answered(key, payload, reply, rows, rows', taps, taps')
  {
    EvolvesTransitive(rows, claimed, rows');
  }

  /** The ledger after a send loop that was allowed to touch only this key's checkpoint. */
  ghost predicate AtMostMarked(key: Key, payload: Payload, rows: Table, rows': Table, started: bool) {
    && key in rows && rows[key] == Row(payload, Preparing, None)
    && (rows' == rows || (started && rows' == MarkTable(rows, key)))
  }

  /** An uncertain row counts the confirmed messages: all that were tapped, or all but the last. */
  predicate CountsTaps(row: Row, taps: int) {
    row.result.Some? && !row.result.value.success && taps - 1 <= row.result.value.sentCount <= taps
  }

  function OutcomeStatus(ok: bool, started: bool): Status {
    if ok then Sent else if started then SubmissionUnknown else NotSubmitted
  }

  lemma AttemptAnswered(key: Key, payload: Payload, rows: Table, sent: Table, rows': Table, ok: bool, started: bool,
                        receipt: Receipt, finish: Outcome, reply: Reply, taps: seq<nat>, taps': seq<nat>)
    requires AtMostMarked(key, payload, rows, sent, started) && payload.messages != []
    requires |taps| <= |taps'| && taps' == taps + Upto(|taps'| - |taps|) && |taps'| - |taps| <= |payload.messages|
    requires |taps'| > |taps| ==> started && sent == MarkTable(rows, key)
    requires ok ==> |taps'| - |taps| == |payload.messages| && receipt == Receipt(true, |payload.messages|)
    requires !ok ==> !receipt.success && receipt.sentCount <= |taps'| - |taps| <= receipt.sentCount + 1
    requires rows' == if !finish.Happened() then sent
                      else FinishTable(sent, key, OutcomeStatus(ok, started), Some(receipt))
    requires reply == if finish.Raised() then NeedsReconciliation
                      else if ok then Delivered(receipt.sentCount)
                      else if started then NeedsReconciliation else SafeToRetry
    ensures Answered(key, payload, reply, rows, rows', taps, taps')
    ensures reply.NeedsReconciliation? && !finish.Raised() ==>
              rows'[key] == Row(payload, SubmissionUnknown, Some(receipt))
  {}

  /** Module globals of the sender process, guarded by `device_lock`. */
  class Agent {
    const phone: Phone
    const ledger: SenderLedger
    var warm: Option<Session>
    var warmUrl: string
    var warmDevice: string
    var leased: bool
    var timer: Option<nat>
    var generation: nat
    ghost var sends: nat                  // sends that have started
    ghost var armedAt: map<nat, nat>      // generation of every timer ever started -> sends so far

    /** Holds whenever the device lock is free. */
    ghost predicate Valid()
      reads this, phone
    {
      && Steady()
      && (leased <==> warm.Some?)
      && phone.Open() == AsSet(warm)
    }

    /** Holds throughout: nothing open outside the warm slot's reach, nothing open without the
        lease, the lease never dropped under an open session, timers never ahead of the counter. */
    ghost predicate Steady()
      reads this, phone
    {
      && phone.Valid()
      && phone.lease == leased
      && !phone.droppedOpen
      && (phone.Open() != {} ==> leased)
      && (forall g :: g in armedAt ==> g <= generation && (g == generation ==> armedAt[g] == sends))
      && (timer.Some? ==> timer.value in armedAt && timer.value == generation)
    }

    /** A session is warm for this device and Appium server. */
    predicate Matches(device: string, url: string)
      reads this
    {
      warm.Some? && warmUrl == url && warmDevice == device
    }

    constructor ()
      ensures Valid() && warm.None? && fresh(phone) && fresh(ledger) && ledger.rows == map[]
    {
      phone := new Phone();
      ledger := new SenderLedger();
      warm, warmUrl, warmDevice, leased, timer, generation := None, "", "", false, None, 0;
      sends, armedAt := 0, map[];
    }

    method CancelIdleTimer()
      modifies `generation, `timer
      ensures generation == old(generation) + 1 && timer.None?
    {
      generation := generation + 1;
      timer := None;
    }

    /** Close first, then give up the lease. */
    method Discard()
      requires Steady() && phone.Open() <= AsSet(warm)
      modifies `warm, `warmUrl, `warmDevice, `leased, `timer, `generation, phone`closed, phone`lease, phone`droppedOpen
      ensures Valid() && warm.None? && generation == old(generation) + 1
      ensures phone.closed == old(phone.closed) + AsSet(old(warm))
    {
      CancelIdleTimer();
      var operator := warm;
      warm, warmUrl := None, "";
      if operator.Some? {
        phone.Close(operator.value);
      }
      assert phone.Open() == {};
      if leased {
        phone.ReleaseLease();
        leased := false;
      }
    }

    method ArmIdleTimer()
      requires Valid()
      modifies `generation, `timer, `armedAt
      ensures Valid()
      ensures generation == old(generation) + 1
      ensures warm.None? ==> timer.None? && armedAt == old(armedAt)
      ensures warm.Some? ==> timer == Some(generation) && armedAt == old(armedAt)[generation := sends]
    {
      CancelIdleTimer();
      if warm.Some? {
        timer := Some(generation);
        armedAt := armedAt[generation := sends];
      }
    }

    /** A timer of generation `g` fires, possibly long after it was cancelled or replaced. It
        discards the session only if no send has started since that timer was armed. */
    method Expire(g: nat) returns (discarded: bool)
      requires Valid() && g in armedAt
      modifies `warm, `warmUrl, `warmDevice, `leased, `timer, `generation, phone`closed, phone`lease, phone`droppedOpen
      ensures Valid()
      ensures discarded <==> g == old(generation)
      ensures discarded ==> armedAt[g] == sends && warm.None? && !leased
      ensures !discarded ==> warm == old(warm) && leased == old(leased) && phone.closed == old(phone.closed)
    {
      discarded := g == generation;
      if discarded {
        Discard();
      }
    }

    /** The warm session if it belongs to this device and Appium server; otherwise it is discarded. */
    method UsableWarm(device: string, url: string) returns (operator: Option<Session>)
      requires Valid()
      modifies `warm, `warmUrl, `warmDevice, `leased, `timer, `generation, phone`closed, phone`lease, phone`droppedOpen
      ensures Valid() && operator == warm && generation >= old(generation)
      ensures operator == if old(Matches(device, url)) then old(warm) else None
      ensures old(Matches(device, url)) ==> Matches(device, url) && phone.closed == old(phone.closed)
    {
      if warm.Some? && (warmUrl != url || warmDevice != device) {
        Discard();
      }
      operator := warm;
    }

    /** One attempt to send: the session is kept warm on success and discarded, with the lease,
        on any failure. */
    method Attempt(key: Key, payload: Payload, url: string, existing: Option<Session>, world: World)
      returns (ok: bool, started: bool, confirmed: nat)
      requires Steady() && phone.Open() == AsSet(warm) && leased && existing == warm && payload.messages != []
      requires key in ledger.rows && ledger.rows[key] == Row(payload, Preparing, None)
      modifies `warm, `warmUrl, `warmDevice, `leased, `timer, `generation, phone, ledger
      ensures Steady() && phone.Open() == AsSet(warm) && (warm.Some? ==> leased) && generation >= old(generation)
      ensures !ok ==> warm.None? && !leased
      ensures AtMostMarked(key, payload, old(ledger.rows), ledger.rows, started)
      ensures |old(phone.taps)| <= |phone.taps|
      ensures var done := |phone.taps| - |old(phone.taps)|;
              && phone.taps == old(phone.taps) + Upto(done)
              && confirmed <= done <= confirmed + 1 && done <= |payload.messages|
              && (done > 0 ==> started && ledger.rows == MarkTable(old(ledger.rows), key))
              && (ok ==> done == |payload.messages|)
      ensures ok <==> && world.valid && SessionWorks(existing, existing.None?, world) && world.at(Navigate).Yes?
                      && AllGo(world, |payload.messages|, true)
      ensures started <==> Typed(existing, existing.None?, world)
      ensures ok ==> (if world.at(TidyUp).Yes? then Matches(payload.device, url) else warm.None?)
      ensures ok && world.at(TidyUp).Yes? && WarmWorks(existing, world) ==>
                warm == existing && phone.created == old(phone.created)
    {
      var progress := new SendProgress();
      var n := |payload.messages|;
      var r, used := SendTextMessages(phone, ledger, progress, key, n, existing, existing.None?, false, world);
      ok, started, confirmed := r.Returned?, progress.started, progress.confirmed;
      if ok {
        warm, warmUrl, warmDevice := r.operator, url, payload.device;
      } else {
        Discard();
      }
    }

    /** Write the outcome down and choose the reply. */
    method Conclude(key: Key, ok: bool, started: bool, receipt: Receipt, finish: Outcome) returns (reply: Reply)
      modifies ledger
      ensures ledger.rows == if !finish.Happened() then old(ledger.rows)
                             else FinishTable(old(ledger.rows), key, OutcomeStatus(ok, started), Some(receipt))
      ensures reply == if finish.Raised() then NeedsReconciliation
                       else if ok then Delivered(receipt.sentCount)
                       else if started then NeedsReconciliation else SafeToRetry
    {
      if finish.Happened() {
        var _ := ledger.Finish(key, OutcomeStatus(ok, started), Some(receipt));
      }
      reply := if finish.Raised() then NeedsReconciliation
               else if ok then Delivered(receipt.sentCount)
               else if started then NeedsReconciliation else SafeToRetry;
    }

    /** A claimed request: send, record what is known, and answer accordingly. */
    method Deliver(key: Key, payload: Payload, url: string, existing: Option<Session>, finish: Outcome, world: World)
      returns (reply: Reply)
      requires Steady() && phone.Open() == AsSet(warm) && leased && existing == warm && payload.messages != []
      requires key in ledger.rows && ledger.rows[key] == Row(payload, Preparing, None)
      modifies `warm, `warmUrl, `warmDevice, `leased, `timer, `generation, phone, ledger
      ensures Steady() && phone.Open() == AsSet(warm) && (warm.Some? ==> leased)
      ensures generation >= old(generation)
      ensures reply.Delivered? || reply.SafeToRetry? || reply.NeedsReconciliation?
      ensures Answered(key, payload, reply, old(ledger.rows), ledger.rows, old(phone.taps), phone.taps)
      ensures reply.NeedsReconciliation? && !finish.Raised() ==>
                && key in ledger.rows && ledger.rows[key].payload == payload
                && ledger.rows[key].status == SubmissionUnknown
                && CountsTaps(ledger.rows[key], |phone.taps| - |old(phone.taps)|)
      ensures Fine(world, |payload.messages|, true) && finish.Done? ==> reply.Delivered?
      ensures finish.Done? ==> (reply.SafeToRetry? <==> !Typed(existing, existing.None?, world))
      ensures reply.Delivered? ==> (if world.at(TidyUp).Yes? then Matches(payload.device, url) else warm.None?)
      ensures reply.Delivered? && world.at(TidyUp).Yes? && WarmWorks(existing, world) ==>
                warm == existing && phone.created == old(phone.created)
    {
      var ok, started, confirmed := Attempt(key, payload, url, existing, world);
      ghost var sent := ledger.rows;
      var receipt := if ok then Receipt(true, |payload.messages|) else Receipt(false, confirmed);
      reply := Conclude(key, ok, started, receipt, finish);
      AttemptAnswered(key, payload, old(ledger.rows), sent, ledger.rows, ok, started, receipt, finish, reply,
                      old(phone.taps), phone.taps);
    }

    /** Own the phone, then claim the key; anything but a fresh claim is answered at once. */
    method Admit(key: Key, payload: Payload, lease: Answer, claim: Outcome) returns (admitted: bool, reply: Reply)
      requires Valid() && payload.messages != []
      modifies `leased, phone`lease, ledger
      ensures Steady() && phone.Open() == AsSet(warm) && (warm.Some? ==> leased)
      ensures admitted ==> leased && ClaimPhaseOf(old(ledger.rows), key, payload, true) == Claimed
                           && ledger.rows == ClaimTable(old(ledger.rows), key, payload, true)
      ensures !admitted ==> !reply.Misconfigured? && !reply.Forbidden?
      ensures !admitted ==> Justified(key, payload, reply, ledger.rows, lease, claim, Done)
      ensures !old(leased) && !lease.Yes? ==> !admitted && ledger.rows == old(ledger.rows)
      ensures (lease.Yes? || old(leased)) && claim.Done? ==>
                (admitted <==> ClaimPhaseOf(old(ledger.rows), key, payload, true) == Claimed)
      ensures !admitted ==> Answered(key, payload, reply, old(ledger.rows), ledger.rows, phone.taps, phone.taps)
    {
      admitted := false;
      if !leased {
        if lease.Raises? { return false, NeedsReconciliation; }
        if lease.No? { return false, DeviceBusy; }
        leased, phone.lease := true, true;
      }
      var phase := Unknown;
      if claim.Happened() {
        phase := ledger.Claim(key, payload, true);
      }
      if claim.Raised() { return false, LedgerDown; }
      match phase {
        case AlreadySent(result) => return false, Cached(result);
        case Conflict => return false, KeyConflict;
        case Unknown => return false, NeedsReconciliation;
        case Claimed => return true, NeedsReconciliation;
      }
    }

    /** The body of `send_wechat` between taking the device lock and its `finally`. */
    method TakeTurn(key: Key, payload: Payload, url: string, existing: Option<Session>,
                    lease: Answer, claim: Outcome, finish: Outcome, world: World)
      returns (reply: Reply)
      requires Valid() && existing == warm && payload.messages != []
      modifies `warm, `warmUrl, `warmDevice, `leased, `timer, `generation, phone, ledger
      ensures Steady() && phone.Open() == AsSet(warm) && (warm.Some? ==> leased)
      ensures generation >= old(generation)
      ensures !reply.Misconfigured? && !reply.Forbidden?
      ensures reply.Delivered? ==> (if world.at(TidyUp).Yes? then Matches(payload.device, url) else warm.None?)
      ensures reply.Delivered? && world.at(TidyUp).Yes? && WarmWorks(existing, world) ==>
                warm == existing && phone.created == old(phone.created)
      ensures Answered(key, payload, reply, old(ledger.rows), ledger.rows, old(phone.taps), phone.taps)
      ensures Justified(key, payload, reply, ledger.rows, lease, claim, finish)
      ensures lease.Yes? && claim.Done? && finish.Done? && Fine(world, |payload.messages|, true) ==>
                ClaimPhaseOf(old(ledger.rows), key, payload, true) == Claimed ==> reply.Delivered?
    {
      var admitted;
      admitted, reply := Admit(key, payload, lease, claim);
      if !admitted { return; }
      ghost var claimed, taps := ledger.rows, phone.taps;
      reply := Deliver(key, payload, url, existing, finish, world);
      AnsweredAfterClaim(key, payload, reply, old(ledger.rows), claimed, ledger.rows, taps, phone.taps);
    }

    /** The `finally` of `send_wechat`: without a session to keep the lease is given up. */
    method Settle()
      requires Steady() && phone.Open() == AsSet(warm) && (warm.Some? ==> leased)
      modifies `warm, `warmUrl, `warmDevice, `leased, `timer, `generation, `armedAt,
               phone`closed, phone`lease, phone`droppedOpen
      ensures Valid() && warm == old(warm) && (warm.Some? ==> warmUrl == old(warmUrl) && warmDevice == old(warmDevice))
      ensures if warm.Some? then timer == Some(generation) else timer.None?
    {
      if warm.None? {
        Discard();
      } else {
        ArmIdleTimer();
      }
    }

    /** An admissible request, from the acquired device lock to its release. */
    method Serve(key: Key, payload: Payload, url: string, lease: Answer, claim: Outcome, finish: Outcome, world: World)
      returns (reply: Reply)
      requires Valid() && payload.messages != []
      modifies this, phone, ledger
      ensures Valid() && !reply.Misconfigured? && !reply.Forbidden?
      ensures Answered(key, payload, reply, old(ledger.rows), ledger.rows, old(phone.taps), phone.taps)
      ensures Justified(key, payload, reply, ledger.rows, lease, claim, finish)
      ensures lease.Yes? && claim.Done? && finish.Done? && Fine(world, |payload.messages|, true) ==>
                ClaimPhaseOf(old(ledger.rows), key, payload, true) == Claimed ==> reply.Delivered?
      ensures reply.Delivered? ==> (if world.at(TidyUp).Yes? then Matches(payload.device, url) else warm.None?)
      ensures old(Matches(payload.device, url)) && WarmWorks(old(warm), world) && world.at(TidyUp).Yes? ==>
                reply.Delivered? ==> warm == old(warm) && phone.created == old(phone.created)
      ensures sends == old(sends) + 1 && (if warm.Some? then timer == Some(generation) else timer.None?)
    {
      CancelIdleTimer();
      sends := sends + 1;
      var existing := UsableWarm(payload.device, url);
      reply := TakeTurn(key, payload, url, existing, lease, claim, finish, world);
      Settle();
    }

    /** `send_wechat` with the device lock at hand. `key` is the idempotency key, or the payload
        hash when the caller gave none. */
    method SendWechat(allowed: string, key: Key, payload: Payload, url: string,
                      lease: Answer, claim: Outcome, finish: Outcome, world: World)
      returns (reply: Reply)
      requires Valid() && payload.messages != []
      modifies this, phone, ledger
      ensures Valid()
      ensures Answered(key, payload, reply, old(ledger.rows), ledger.rows, old(phone.taps), phone.taps)
      ensures Justified(key, payload, reply, ledger.rows, lease, claim, finish)
      ensures reply.Misconfigured? <==> allowed == ""
      ensures reply.Forbidden? <==> allowed != "" && payload.device != allowed
      ensures payload.device == allowed != "" && ClaimPhaseOf(old(ledger.rows), key, payload, true) == Claimed ==>
                lease.Yes? && claim.Done? && finish.Done? && Fine(world, |payload.messages|, true) ==> reply.Delivered?
      ensures reply.Delivered? ==> (if world.at(TidyUp).Yes? then Matches(payload.device, url) else warm.None?)
      ensures old(Matches(payload.device, url)) && WarmWorks(old(warm), world) && world.at(TidyUp).Yes? ==>
                reply.Delivered? ==> warm == old(warm) && phone.created == old(phone.created)
      ensures !reply.Misconfigured? && !reply.Forbidden? ==>
                sends == old(sends) + 1 && (if warm.Some? then timer == Some(generation) else timer.None?)
      ensures (reply.Misconfigured? || reply.Forbidden?) ==> warm == old(warm) && sends == old(sends)
    {
      if allowed == "" { return Misconfigured; }
      if payload.device != allowed { return Forbidden; }
      reply := Serve(key, payload, url, lease, claim, finish, world);
    }
  }
}
