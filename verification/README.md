# Protocol proofs for the WeChat-on-Airflow operations code

The repository sends WeChat messages through a phone, scrapes court availability on a
Raspberry Pi, and operates both from scripts that run over unreliable connections. Inside
that plumbing are small protocols that must survive crashes, lost replies, concurrent
operators and clock skew. This project models them in Dafny and proves what they are for.

`dafny verify dfyconfig.toml` checks everything. There is one module per component.

| module | component |
|---|---|
| `Effects` | optional values, the three outcomes of a remote call (done, done but the reply is lost, not done), a monotonic clock |
| `Ledger`, `SendSystem` | the durable sender ledger, and every run of any number of send requests against it and the phone |
| `SenderAgent`, `PhoneLease` | the sender process: warm session, idle timer, `send_wechat`; the cross-process phone lease |
| `DagGuard`, `Fence` | the guard that pauses the DAG; guard, runner and Pi together, in real time |
| `Evidence`, `Inspection`, `ReportEncoding` | the evidence budget and reference closure, the two validators, the report encoder |
| `Activation` | transactional switch of the scraper release |
| `ControlRow`, `EmailRecovery`, `RecoveryFence` | compare-and-swap on the runtime control row, and the two procedures that race on it |
| `DomainMove` | the staged move of the public hostname with compensation |
| `Wheelhouse`, `ReleaseGate`, `Ingress` | manifest and archive arithmetic, the check wait loop, the ingress list rewrite |

## How the protocols are modelled

- A protocol between several machines or sessions is a state, an `Event` datatype and a total
  `Apply`; an event that is not possible changes nothing. Theorems are about `Run` over every
  list of events, so over every interleaving, with failures and crashes at any point.
- An operation that works step by step is a method on a class with the source's fields. A
  remote or durable call takes an `Outcome`, so it can fail before or after its effect.
- Histories (`taps`, `confirms`, `marks`, `history`, `log`, `through`, `asked`, `reverts`, `breached`) are read by no
  operation; they only let theorems speak about what happened.
- Hashes are taken as injective, so a payload stands for its hash. Regular expressions, JSON
  sizes and parsers are arbitrary functions passed as parameters.

## Findings

Six promises turned out to hold only under a condition. Each has a lemma or clause with the
failing case and the exact condition.

1. `safe_to_retry=true` means "nothing was tapped" in every run exactly when requests are kept
   apart by the in-process device lock. Across processes only the phone lease is left, and
   `_discard_warm_operator` (sender_agent/app.py:346) releases it before the failure is written
   (line 359), so a second process can claim, cross and tap in between
   (`SendSystem.RetrySafeIffDeviceLock`, `SendSystem.LeaseAloneIsNotEnough`). At-most-once itself
   needs no mutual exclusion at all (`SendSystem.AtMostOnce`).
2. `send_text_messages` validates its request before the scope that closes sessions
   (wechat_sender/appium_text_sender.py:1254-1259); a supplied session is left open exactly when
   the call raises because validation fails. The caller then closes it
   (`SenderAgent.SendTextMessages`, `SenderAgent.Agent.SendWechat`).
3. A verified rollback of the hostname move restores destinations, routes and DNS, but rebuilds
   the primary domain from the first destination (scripts/deploy_pi_appium_mcp.py:603). The whole
   state is restored exactly when the domain was the first destination
   (`DomainMove.MigrateDomain`, and `DomainMove.PrimaryDomainChanges` for a run where it was not).
4. The baseline check of `restore_recovery_source` and its checkout are two steps
   (scripts/host_core_production.py:648-649). The source is moved back over a live baseline
   exactly when, between the two, nobody else wrote the control row and no fence took effect with
   passing checks (`RecoveryFence.RevertSafeIff`); another session's fence can
   (`RecoveryFence.FenceBetweenCheckAndCheckout`).
5. `encode_report` checks each report alone and then limits all of them together, so with two
   reports a kept entry may rely on a source that only the other report carries. When the runner
   encodes what the Pi printed, nothing is lost exactly when every report refers only to itself
   (`ReportEncoding.EncodeStableIff`). Two reports do lose evidence, whatever the size measure and
   the hash, whenever a definition fits beside its reuse and not a second time
   (`ReportEncoding.TwoReportsLose`). One report always survives
   (`ReportEncoding.SingleReportStable`), and `inspect_venues` (pi_host/dsh_ydmap/install.py:1283)
   emits a single report today, although the validators admit two.
6. `DeviceLease.acquire` sets the mode of the lock file after opening it and before the scope that
   closes it (sender_agent/device_lease.py:21-23). On a failed call a descriptor is left open
   exactly when that step raises (`PhoneLease.DeviceLease.Acquire`); the lock itself is not held.

The deadlines of the fence leave 130 seconds, less the time by which `wait_idle` overruns its own
240 seconds, and never less than 120, for clock-read gap, delivery and untimed moments together;
within that the fence holds for every clock offset, and beyond it some offset and run breach it
(`Fence.SlackIsExact`). The truncation of the issue time to whole seconds costs nothing: it
shortens the lease by as much as it widens the accepted skew. Exactness is relative to the
deadlines that cover a whole phase (540, 150 and 240 seconds): a single `systemctl` call has a
limit of its own, the file operations beside it and the preparation of the candidate have none.

## Model

| member | source | states |
|---|---|---|
| `Ledger.SenderLedger.Claim` | sender_agent/ledger.py:35-66 | Granted exactly to an unknown key, or again to the same payload while its row is `preparing` or `not_submitted`; conflict and cached exactly under their conditions; every other answer leaves the table alone, and no answer touches another key |
| `Ledger.SenderLedger.MarkSubmitting` | sender_agent/ledger.py:69-78 | Acknowledged exactly for a `preparing` row, which becomes `dispatching` and keeps the rest; nothing else changes |
| `Ledger.SenderLedger.Finish` | sender_agent/ledger.py:81-90 | Only an outcome status is accepted; the row takes status and result exactly if it is open, and `not_submitted` cannot replace `dispatching`; no other row changes |
| `Ledger.SenderLedger.Lookup` | sender_agent/ledger.py:101-115 | A row is visible only under its own payload; it counts as confirmed exactly when sent with a successful result |
| `Ledger.ClaimEvolves` | sender_agent/ledger.py:43-61 | A claim keeps every key and payload, uncrosses no row and touches no `sent` or `submission_unknown` row |
| `Ledger.FinishEvolves` | sender_agent/ledger.py:81-90 | So does recording an outcome |
| `Ledger.EvolvesTransitive` | sender_agent/ledger.py:35-90 | These guarantees compose over any number of transactions |
| `SendSystem.KeepGrant` | sender_agent/ledger.py:69-78 | A granted checkpoint keeps the invariant: the key had no owner and no tap before |
| `SendSystem.KeepTap` | wechat_sender/appium_text_sender.py:732-744 | A tap, confirmed or lost, keeps the invariant: it is the owner's next position |
| `SendSystem.KeepConfirm` | wechat_sender/appium_text_sender.py:736-744 | A confirmation keeps the invariant: it is the owner's next position and was tapped |
| `SendSystem.KeepFinishTable` | sender_agent/app.py:345-375 | Writing the outcome keeps the invariant: `sent` is written only after every message was tapped |
| `SendSystem.Keep` | sender_agent/app.py:317-375 | Every event of every request keeps the invariant, under any mutual exclusion or none |
| `SendSystem.RunInv` | sender_agent/app.py:317-375 | The invariant holds after every run |
| `SendSystem.AtMostOnce` | sender_agent/ledger.py:35-90 | In every run at most one request per key passes the checkpoint; all taps of a key are its taps, strictly increasing and within the claimed payload |
| `SendSystem.LedgerTruth` | sender_agent/ledger.py:43-90 | No row, `preparing` or `not_submitted` means no tap and no confirmation ever; confirmations never run ahead of taps; `sent` means every message tapped once in order, each confirmed, and a receipt for all of them |
| `SendSystem.LedgerForever` | sender_agent/ledger.py:43-90 | No continuation of a run changes a payload, uncrosses a row or alters a `sent` or `submission_unknown` row |
| `SendSystem.KeepExclusive` | sender_agent/app.py:290-388 | Under the device lock one request is active, and an active request that has not begun to submit has an uncrossed row |
| `SendSystem.SafeToRetryIsSafe` | sender_agent/app.py:345-362 | Under the device lock `safe_to_retry=true` is answered only while the key has no tap, and a retry of the same payload is then admitted |
| `SendSystem.LeaseAloneIsNotEnough` | sender_agent/app.py:345-362 | Under the phone lease alone a reachable run answers `safe_to_retry=true` although another request has tapped |
| `SendSystem.RetrySafeIffDeviceLock` | sender_agent/app.py:345-362 | `safe_to_retry` is truthful in all runs exactly under the device lock |
| `SendSystem.ReceiptTruth` | sender_agent/app.py:345-375 | Under the device lock a recorded outcome counts exactly the confirmed messages and claims success exactly for `sent` |
| `SendSystem.StartedNeedsReconciliation` | sender_agent/app.py:345-362 | Under the device lock a failure after submission began is recorded as uncertain, answered so, and no payload is admitted for the key again |
| `SendSystem.DeliveredIsRecorded` | sender_agent/app.py:364-375 | Under the device lock a fully confirmed request is recorded as sent, and answered as delivered exactly if the write was acknowledged |
| `SendSystem.FaultFreeDelivers` | wechat_sender/appium_text_sender.py:708-750 | Without faults every message is tapped and confirmed once in order and the row ends `sent` |
| `SenderAgent.SendMessages` | wechat_sender/appium_text_sender.py:708-750 | The loop taps a prefix of the messages in order, all through its own open session, at most one beyond the confirmed ones, none without an acknowledged checkpoint; it succeeds exactly if every message goes and the checkpoint is acknowledged; submission starts exactly when the first message is typed |
| `SenderAgent.SendProgress.Submitting` | wechat_sender/appium_text_sender.py:47-52 | The checkpoint is tried once per request, memory first; it raises exactly if the mark is not acknowledged |
| `SenderAgent.Reuse` | wechat_sender/appium_text_sender.py:1266-1277 | The warm session is kept exactly if a look raises or the second look says it can send; otherwise it is closed |
| `SenderAgent.Prepare` | wechat_sender/appium_text_sender.py:1266-1301 | The session that sends is the warm one exactly if it can; otherwise it is a new one and the warm one is closed; ready exactly under the conditions of the two launches |
| `SenderAgent.Start` | wechat_sender/appium_text_sender.py:1279-1301 | Ready exactly if the first launch or the forced restart gets there; on every path the only session that may be open is the one the caller still has to close, and it is new |
| `SenderAgent.SendTextMessages` | wechat_sender/appium_text_sender.py:1239-1324 | After any outcome the open sessions are exactly the returned one, or none, or the supplied one if validation failed; every tap went through the warm session if that can send, else through a new one with the warm one closed; returns exactly if validation, session, navigation and messages succeed; keeps the session exactly if nothing was left behind |
| `SenderAgent.Agent.CancelIdleTimer` | sender_agent/app.py:155-160 | The generation grows, so no earlier timer can match |
| `SenderAgent.Agent.Discard` | sender_agent/app.py:138-152 | The session is closed before the lease is released, and both are gone afterwards |
| `SenderAgent.Agent.ArmIdleTimer` | sender_agent/app.py:171-183 | A timer is armed with a new generation only if a session is warm |
| `SenderAgent.Agent.Expire` | sender_agent/app.py:163-168 | A timer discards exactly if its generation is current, and then no send has started since it was armed |
| `SenderAgent.Agent.UsableWarm` | sender_agent/app.py:186-193 | The warm session is returned exactly if it belongs to this device and server; any other is discarded |
| `SenderAgent.Agent.Attempt` | sender_agent/app.py:332-365 | Success keeps the session warm for this device and server exactly if the tidy-up worked, and reuses a warm one without opening another; failure leaves no session and no lease; the ledger was at most marked |
| `SenderAgent.Agent.Admit` | sender_agent/app.py:310-330 | The phone is owned before the key is claimed, and without it the ledger is untouched; every refusal keeps the promises of its reply |
| `SenderAgent.Agent.Deliver` | sender_agent/app.py:332-375 | `safe_to_retry` is answered exactly if the outcome was recorded and no message was typed; an uncertain row counts all tapped messages or all but the last |
| `SenderAgent.Agent.SendWechat` | sender_agent/app.py:278-388 | When the lock is free again the lease is held exactly if a session is warm, and was never released under an open session; every reply tells the truth about ledger and phone; a refusal has its reason, and a claimed request without faults is delivered |
| `SenderAgent.AttemptAnswered` | sender_agent/app.py:345-375 | The recorded outcome and the reply agree with what was tapped, also when recording fails |
| `SenderAgent.AnsweredAfterClaim` | sender_agent/app.py:317-330 | What holds against the claimed row holds against the table before the claim |
| `PhoneLease.DeviceLease.Acquire` | sender_agent/device_lease.py:18-41 | Success means this lease holds the kernel lock; refusal or error touches no other lock and leaves a descriptor open exactly if setting the file mode raised; a refusal waited out the timeout |
| `PhoneLease.DeviceLease.Release` | sender_agent/device_lease.py:43-46 | The descriptor is closed and the lock free; releasing an unowned lease changes nothing |
| `DagGuard.Backend.Pause` | scripts/pi_ydmap_dag_guard.py:73-93 | The pause is refused only while something is active, and then not taken; whatever is lost, the flag or the note still tells the previous value |
| `DagGuard.Backend.Counts` | scripts/pi_ydmap_dag_guard.py:111-122 | A sample is returned only while the pause is in force |
| `DagGuard.Backend.Restore` | scripts/pi_ydmap_dag_guard.py:124-145 | A verified restore means the flag has the requested value |
| `DagGuard.DrainOnce` | scripts/pi_ydmap_dag_guard.py:194-219 | One pass of the loop: a raced pause is put back before the next try, and only a failed call or a signal ends the drain |
| `DagGuard.Drain` | scripts/pi_ydmap_dag_guard.py:192-220 | Over any races, retries and interrupts the first flag stays known; drained means two consecutive empty samples under the pause; it gives up only on a setback or after 600 s |
| `DagGuard.WaitRelease` | scripts/pi_ydmap_dag_guard.py:148-164 | However the bytes are split, the guard is released exactly by the acknowledgement line |
| `DagGuard.Hold` | scripts/pi_ydmap_dag_guard.py:221-249 | The proof lives 1530 s from its whole second; without the acknowledgement the hold lasts 1620 s, whatever interrupts it |
| `DagGuard.PutBackFlag` | scripts/pi_ydmap_dag_guard.py:250-261 | The flag is put back, or every attempt of a full minute failed |
| `DagGuard.GuardLog` | scripts/pi_ydmap_dag_guard.py:167-274 | Drain, hold and attempts joined: one proof at most, on two empty samples directly before it, and no touch of the flag in between |
| `DagGuard.RunGuard` | scripts/pi_ydmap_dag_guard.py:167-274 | `restored` means the flag equals its first value, and its absence that a minute of attempts failed; a proof follows two empty samples under the pause; without acknowledgement the flag is not touched for 1620 s from the last of them; the guard fails only for a reason |
| `Fence.KeepChange` | pi_host/dsh_ydmap/install.py:1654-1691 | A Pi that may still change its service is early enough for the pause to be in force |
| `Fence.KeepPi` | pi_host/dsh_ydmap/install.py:1023-1044 | Each of the five checks on the Pi bounds the guard-clock time of what follows, whatever the clock offset, with `wait_idle` kept to its deadline |
| `Fence.RunInv` | scripts/deploy_pi_ydmap.py:195-268 | Roles and clock bounds hold in every interleaving of guard, runner and Pi |
| `Fence.LiftOnlyAcknowledgedOrExpired` | scripts/pi_ydmap_dag_guard.py:238-259 | The pause is lifted only after the Pi reported completion (or never started) and the runner acknowledged, or at the hold deadline |
| `Fence.FenceHolds` | pi_host/dsh_ydmap/install.py:122-126 | If gap, delivery and untimed moments fit in the slack, no step of an activation or rollback happens after the pause is lifted, for every clock offset |
| `Fence.BreachReaches` | pi_host/dsh_ydmap/install.py:1420-1431 | Beyond the slack some clock offset and a run that keeps every phase deadline do breach the fence |
| `Fence.SlackIsExact` | pi_host/dsh_ydmap/install.py:1654-1691 | The fence holds for all offsets and runs exactly if the three delays fit in 130 s less the overrun of `wait_idle`, at least 120 s |
| `Evidence.ClosureIsGreatest` | pi_host/dsh_ydmap/install.py:826-846 | The closure is closed under references and contains every closed set |
| `Evidence.AdmitKeeps` | pi_host/dsh_ydmap/install.py:819-825 | An entry is kept exactly if it fits beside what is kept in front of it, so a misfit takes nothing from later entries |
| `Evidence.AdmitFits` | pi_host/dsh_ydmap/install.py:804-825 | The budget pass never admits more than its budget |
| `Evidence.LimitedFits` | pi_host/dsh_ydmap/install.py:802-847 | What is kept never exceeds 128 KiB |
| `Evidence.ClosureStable` | pi_host/dsh_ydmap/install.py:826-846 | Restricting to the closure leaves the closure as it is |
| `Evidence.LimitIdempotent` | pi_host/dsh_ydmap/install.py:802-847 | A second run removes nothing |
| `Evidence.ClosureStaysResolved` | pi_host/dsh_ydmap/install.py:829-846 | No sweep can remove a member of the closure |
| `Evidence.ResolvedIsClosure` | pi_host/dsh_ydmap/install.py:829-846 | When nothing is unresolved, exactly the closure is left |
| `Evidence.ApplyBudget` | pi_host/dsh_ydmap/install.py:804-825 | The in-place pass keeps exactly the entries that fit beside those kept before them, and tells exactly whether anything was partial or did not fit |
| `Evidence.Sweep` | pi_host/dsh_ydmap/install.py:838-846 | One sweep removes exactly the unresolved entries and reports whether it did |
| `Evidence.Resolve` | pi_host/dsh_ydmap/install.py:826-846 | The loop ends, in the greatest closed subset, and reports exactly whether anything was removed |
| `Evidence.LimitSourceEvidence` | pi_host/dsh_ydmap/install.py:802-847 | Both passes together give the greatest closed part of the admitted entries, with truthful flags |
| `Inspection.ValidateSlots` | pi_host/dsh_ydmap/install.py:1070-1092 | Accepts exactly the valid courts and returns their counts, at most 100 and 100000 |
| `Inspection.RangeIsProper` | pi_host/dsh_ydmap/install.py:1079-1091 | An accepted range is a non-empty stretch of one day, in minutes |
| `Inspection.SlotTotalCounts` | pi_host/dsh_ydmap/install.py:1073-1092 | The slot total counts every range of every court once |
| `Inspection.SafeEvidenceStable` | pi_host/dsh_ydmap/install.py:606-799 | The evidence parser accepts its own output unchanged |
| `Inspection.InspectGroups` | pi_host/dsh_ydmap/install.py:1129-1184 | Accepts exactly groups with the right identities and tells whether evidence was rejected |
| `Inspection.InspectDay` | pi_host/dsh_ydmap/install.py:1118-1194 | A day is accepted exactly if products, identities and slots are right |
| `Inspection.InspectEvidence` | pi_host/dsh_ydmap/install.py:1095-1214 | The loops compute the reference validator |
| `Inspection.SafeInspection` | pi_host/dsh_ydmap/install.py:1222-1267 | One report is re-read as the reference does |
| `Inspection.SafeInspections` | pi_host/dsh_ydmap/install.py:1217-1271 | The re-reading loop computes the reference: all reports or none |
| `Inspection.InspectCanonical` | pi_host/dsh_ydmap/install.py:1095-1214 | Every accepted payload yields a canonical report |
| `Inspection.SafeCanonical` | pi_host/dsh_ydmap/install.py:1217-1271 | Whatever re-reading lets through is canonical |
| `Inspection.CanonicalIsFixed` | pi_host/dsh_ydmap/install.py:1217-1271 | Canonical reports are exactly the fixed points of re-reading |
| `Inspection.RoundTrip` | pi_host/dsh_ydmap/install.py:1095-1271 | Every report of the first validator passes the second unchanged, counts, flags, diagnostics and evidence included |
| `Inspection.SafeIdempotent` | pi_host/dsh_ydmap/install.py:1217-1271 | Re-reading twice is re-reading once, for any input list |
| `Inspection.FlagsTellAll` | pi_host/dsh_ydmap/install.py:1177-1213 | Both evidence flags are off exactly if every group's evidence is well-formed, complete and still there |
| `Inspection.AcceptedPayload` | pi_host/dsh_ydmap/install.py:1095-1194 | An accepted payload is a verified scrape of this venue for these dates, with every product, and its counts are those of its courts |
| `Inspection.ShownGroup` | pi_host/dsh_ydmap/install.py:1129-1176 | What every shown group is: dates, product, host, sales id, freshness, versions and bounds |
| `Inspection.ShownEvidence` | pi_host/dsh_ydmap/install.py:613-799 | Shown evidence accounts for every cell, its sources match their hashes and lengths, its references exist |
| `ReportEncoding.EncodeInspections` | pi_host/dsh_ydmap/install.py:850-869 | Re-read, then limit all reports together; the two outer flags tell exactly whether anything was cut or rejected here, in a report or in the incoming flags |
| `ReportEncoding.EncodeFits` | pi_host/dsh_ydmap/install.py:856-861 | All evidence printed together fits 128 KiB and refers only to what is printed |
| `ReportEncoding.EncodeStableIff` | pi_host/dsh_ydmap/install.py:850-869 | Encoding again changes nothing exactly if every kept report refers only to itself |
| `ReportEncoding.SingleReportStable` | pi_host/dsh_ydmap/install.py:850-869 | A single report survives any number of encodings and loses nothing in the first |
| `ReportEncoding.LeaningPairExists` | pi_host/dsh_ydmap/install.py:802-825 | Such evidence exists with an injective hash and sizes in source bytes: 20 methods of 4096 bytes |
| `ReportEncoding.TwoReportsLose` | pi_host/dsh_ydmap/install.py:856-869 | Under any rules: a definition that fits beside its reuse and not twice gives two accepted reports whose second encoding differs from the first |
| `Activation.Host.Switch` | pi_host/dsh_ydmap/install.py:1662-1673 | Without a failure files, loaded drop-in and running unit are the whole target; otherwise each file is the target's or the old one |
| `Activation.PollHealth` | pi_host/dsh_ydmap/install.py:1703-1723 | Restored exactly if the old identity answers before the deadline strikes |
| `Activation.Activate` | pi_host/dsh_ydmap/install.py:1634-1731 | On return the whole candidate runs; a verified rollback means the whole previous release runs; never a mixture in either case, and no file changes under a running unit; refused, applied and rollback verified each exactly under their conditions |
| `ControlRow.ControlTable.Mutate` | scripts/email_recovery_probe.py:263-311 | The write happens exactly if every guard holds on the stamped row, spelt out; it sets delivery, phase and stamp and nothing else |
| `ControlRow.ControlTable.Fence` | scripts/host_core_production.py:52-84 | The fence commits exactly on the stamped active row with every checkpoint, spelt out; it closes delivery and WeChat under the target commit and cannot commit on its own result |
| `EmailRecovery.KeepEnable` | scripts/email_recovery_host.py:285-286 | An enable replaces the row of the first snapshot and no other |
| `EmailRecovery.KeepPause` | scripts/email_recovery_host.py:230-235 | A pause replaces the procedure's own answered enable and no other |
| `EmailRecovery.RunInv` | scripts/email_recovery_host.py:247-303 | The invariant holds in every interleaving with other operators |
| `EmailRecovery.NeverOverwritesOthers` | scripts/email_recovery_host.py:219-303 | At most two writes: one enable over exactly the observed row, one pause directly over that enable; nobody else's row, and never commit, gate or activation time |
| `EmailRecovery.RollbackExact` | scripts/email_recovery_host.py:219-244 | After a failure delivery is paused exactly if the enable was answered and is still the live row; otherwise nothing is written |
| `EmailRecovery.EnabledAfterStandby` | scripts/email_recovery_host.py:281-285 | Delivery is enabled only after a standby consumer of the expected commit has shown itself since the first snapshot |
| `EmailRecovery.SuccessIsOwnActivation` | scripts/email_recovery_host.py:285-295 | A reported success was seen on the procedure's own unpaused enable, with a heartbeat younger than it |
| `EmailRecovery.UndisturbedActivates` | scripts/email_recovery_host.py:277-295 | Undisturbed, the procedure does activate delivery with one write |
| `EmailRecovery.FailureIsPaused` | scripts/email_recovery_host.py:219-303 | When the consumer never shows itself the procedure takes its own enable back |
| `RecoveryFence.FenceOnce` | scripts/host_core_production.py:759-771 | From one baseline the fence commits at most once in any interleaving, and replaces exactly the baseline |
| `RecoveryFence.FencedStaysClosed` | scripts/host_core_production.py:80-84 | A committed fence has both gates closed under the target commit, and they stay so until somebody else writes the row |
| `RecoveryFence.FencedRefuses` | scripts/host_core_production.py:594-649 | After a fence no second fence, source preparation or undo check ever passes again |
| `RecoveryFence.UntouchedIffQuiet` | scripts/host_core_production.py:52-84 | From the live baseline the row is untouched exactly if no event is a write |
| `RecoveryFence.RevertSafeIff` | scripts/host_core_production.py:635-657 | The checkout of a checked undo is recorded as made over the live baseline exactly if no event since the check was another writer's write or a fence that took effect with passing checks |
| `RecoveryFence.FenceBetweenCheckAndCheckout` | scripts/host_core_production.py:648-649 | A reachable run reverts the source after another session's fence |
| `DomainMove.Publish` | scripts/deploy_pi_appium_mcp.py:717-746 | Protection, route, then record: every intermediate state keeps published names protected; succeeds exactly if its own calls do |
| `DomainMove.Retire` | scripts/deploy_pi_appium_mcp.py:747-766 | Record, route, then protection withdrawn, with the same guarantee; succeeds exactly if its own calls do |
| `DomainMove.Back` | scripts/deploy_pi_appium_mcp.py:776-799 | The compensation keeps the guarantee from any state a failure can leave, reports success exactly if its own calls succeed, and then the snapshot is restored |
| `DomainMove.PrimaryDomainChanges` | scripts/deploy_pi_appium_mcp.py:603-604 | A protected start and a verified rollback after which the primary domain is another one |
| `DomainMove.MigrateDomain` | scripts/deploy_pi_appium_mcp.py:692-800 | Every published hostname stays routed and protected after every write; the old name is given up only after the new one answered; refused, unchanged, moved and rollback verified each exactly under their conditions; a verified rollback restores destinations, ingress and DNS, and the domain exactly if it was the first destination |
| `Wheelhouse.CheckWheels` | scripts/sender_wheelhouse.py:81-145 | Accepts exactly wheels for known pins without repeated pin or file name |
| `Wheelhouse.PinsAndWheelsMatch` | scripts/sender_wheelhouse.py:80-146 | Pins and wheels are in bijection, so the final equality check cannot fail |
| `Wheelhouse.ManifestMeans` | scripts/sender_wheelhouse.py:60-150 | The accepted manifests spelt out in both directions: counts, sizes, names, no repetition |
| `Wheelhouse.ReadManifest` | scripts/sender_wheelhouse.py:60-150 | Accepts exactly the manifests that are valid declaratively, and then every pin has its wheel |
| `Wheelhouse.LayoutSizes` | scripts/sender_wheelhouse.py:213-230 | Headers and names take between 86 and 484 bytes per entry |
| `Wheelhouse.EndRecordDecodes` | scripts/sender_wheelhouse.py:255-276 | Reading the end record gives back what was written |
| `Wheelhouse.EndOkMeans` | scripts/sender_wheelhouse.py:255-276 | Conversely an accepted archive ends in the end record of exactly these wheels, with the directory directly in front |
| `Wheelhouse.ArchiveAlwaysStages` | scripts/sender_wheelhouse.py:255-327 | The archive for any accepted manifest fits the staging limit, by at most 426 bytes per entry, and passes the end-record check |
| `ReleaseGate.ResultIsNewest` | scripts/github_release_gate.py:20-35 | The result describes the run with the largest id, the first of equals, and is ok exactly if that run is completed with success; absent exactly if there is no candidate |
| `ReleaseGate.WaitForRequiredCheck` | scripts/github_release_gate.py:92-127 | Ends for every clock, at the first completed check; timeout implies present, missing-expiry implies absent, never both, neither exactly if completed; never asks for more sleep than the wait, or than the shorter wait while the check is missing |
| `ReleaseGate.FetchBound` | scripts/github_release_gate.py:112-127 | The loop's guarantee means at most wait/poll + 4 fetches |
| `Ingress.OneRule` | scripts/configure_zacks_tunnel.py:35-65 | Exactly one rule for host and path remains, and it carries the wanted service |
| `Ingress.OthersKept` | scripts/configure_zacks_tunnel.py:35-65 | All other rules stay, in order |
| `Ingress.InsertedInFront` | scripts/configure_zacks_tunnel.py:52-62 | A new rule precedes the first pathless rule of that host and the first status rule |
| `Ingress.UnchangedIff` | scripts/configure_zacks_tunnel.py:35-65 | The list is unchanged exactly if it already held the wanted rule once |
| `Ingress.RewriteIdempotent` | scripts/configure_zacks_tunnel.py:35-65 | A second application is the identity |
| `Ingress.DropDuplicates` | scripts/configure_zacks_tunnel.py:44-51 | Popping from the back leaves exactly the later non-matching rules, in order |
| `Ingress.WithZacksRule` | scripts/configure_zacks_tunnel.py:35-65 | The loops compute the reference rewrite; `changed` is true exactly if the list differs |

## Left out

- SSH, subprocess, Docker, systemd, curl and HTTP calls: each is a step that succeeds, fails, or fails with unknown effect.
- Appium navigation, OCR, screenshots and fuzzy name matching: only the order of typing, checkpoint, tap and confirmation is modelled, and whether each succeeds.
- The visual send loop: it has the same checkpoint, tap and confirmation order as the accessible one, so one loop stands for both.
- SQLite and PostgreSQL internals: transactions are atomic and durable, and write timestamps strictly increase, also for the fence, which takes the transaction start time as its timestamp.
- SHA-256, JWT and host keys: hashes are injective, signatures are not modelled.
- JSON typing, regular expressions, `str()` of identifiers and base64: records are typed, patterns are arbitrary predicates; every error code of a validator is the same `None`.
- Waiting for the device lock and its timeout: `SendWechat` starts with the lock held and ends with its release; `SendSystem` lets any request arrive when the lock is free.
- The size cap of `encode_report` on the whole JSON text: only its evidence part is modelled.
- DagGuard.Backend.Pause: one DAG flag stands for the map of DAGs, since the guard names a single DAG.
- `--allow-interruption`: it bypasses the fence on purpose, so `Fence` excludes it; `Activation` includes it.
- Fence: commit and guard identity checks of the proof and the runner's own look at it are taken to pass; a failing check is the end of the Pi command; limits on single commands inside a phase are not modelled, only the phase's own deadline.
- Container starts and stops in email recovery and heartbeat content in the recovery fence: they are not covered by the compare-and-swap, so claims stop at the control row.
- DomainMove: writers other than the move itself, and Access policies other than hostnames.
- ReadManifest: tag, URL and version checks on one wheel are one arbitrary predicate.
- ArchiveAlwaysStages: the contents of ZIP headers other than their lengths and the end record.
- `src/wechat_airflow/host_core`, release classification, health reports, diagnostics sanitizers, service recovery plans, secret preparation, configuration sync, `webapp` and the user interface: mostly single-branch checks or fixed tables.
