# Pitcrew admission and autoscaling: a verified model

Pitcrew runs self-hosted workers on shared hosts. This project models the parts of it
that decide who may run what, and that must stay right across crashes, restarts and
failed writes, and it proves what they promise. The core is the host admission
coordinator: one lock-serialised state machine over a durable ledger (policy, leases,
tombstones, adoption fences, decision sequence) and volatile memory (demand, deadlines,
rotation cursor). Around it stand the profile-wide worker ceiling, the write-ahead
release of host leases, the retirement of targets, the control-plane rate gate and the
bounded operation journal.

`dafny verify dfyconfig.toml` checks everything.

## How the model is built

Every durable change of the coordinator is one guarded edit of the ledger
(`Ledgers.Edit`). `Commands` defines each command as a step on values; the clock
reading, the order in which a sweep visits the lease map and the outcome of each save
are part of its environment. `Runs` strings commands, crashes and restarts together from
a fresh store, in any order and with any failures, and keeps the list of committed edits
as a history. The theorems about runs are proved over that history. `Replies`
gives each command's answer and effect independently of its definition, by the leases in
force at the instant of the call. `Coordinators` holds the coordinator as a mutable object
with the loops of the original; each of its methods is proved to take exactly the step that
`Commands` defines, so the theorems hold of the object.

The other components follow the same plan: a state, its steps as functions, a theorem
over all runs, and a class whose methods are proved equal to the steps.

| File | Content |
|---|---|
| Ordering, Sums, Division, FairShare, Backoff | sorted views and binary search, sums over maps, division, the rotating split, bounded backoff |
| Identity, Policy, Leases, Admission | identities, policy validation, unit accounting, the admission decision |
| Ledgers, Commands, Invariants, Runs | the ledger and its edits, the commands, what they keep, whole runs |
| Decisions, Replies, StatusLines | what the decision, every command and every status line give, by the leases in force |
| Lifetimes, Expiry, Removals, Demands, Budget, Reservations, Adoption, FairTurns, StatusAgreement, Restart | the theorems about the coordinator |
| Scenarios | runs from a fresh store that reach the failing states |
| Tallies, Coordinators | the coordinator's loops and the coordinator itself |
| ProfileCeiling, CeilingRuns | the profile-wide ceiling and its interleavings |
| HostLeaseRelease, ReleaseRetries, Retirement, RetirementRuns, RateGate, Journals, JournalForm | the four crash-ordered or bounded components |

## What the proofs found

- The comment on the rotation seed says that the cursor is always used modulo the
  contender count. The code takes Go's remainder of `index - rotation + count`, which is
  negative for a large cursor. The shares then hand out more than there is. They
  partition the available units exactly when the cursor is at most the contender count
  or there is one contender; otherwise they only over-protect the others.
- A borrowable owner that reclaims a lent reservation can use up units that protect a
  non-borrowable reservation. A grant does this exactly when the owner is borrowable and
  the unprotected units would not have paid for it.
- Status counts only leases of policy profiles. With a lease of a departed profile and a
  cursor out of range it can promise no worker although an acquire would be granted. Promise
  and grant agree exactly when something is withheld or Status finds room by its own count.
- The rate gate stores its deadline in whole seconds. After a restart operations may start
  exactly from the deadline cut to the second on, so before the deadline exactly when the
  deadline is not a whole second.
- The journal's eviction counter counts entries, not occurrences. Recording an event keeps
  the tally exactly when nothing is evicted or the evicted entry stands for one occurrence.
- A target with maximum zero that is retired leaves a document that no start accepts.
- A runner whose worker has stopped and whose write-ahead save failed is known only in
  memory. A restart loses its lease. It keeps a slot exactly when a running worker, the
  document or a confirmed release accounts for it.
- A failed load of the release document lets the next save overwrite it. A recorded lease
  that is not queued again stays stored exactly as long as no save succeeds.
- A profile member's protected need can still be lost. The ceiling keeps it free while another
  member takes more than its guarantee, but then the cursor moves and the other member's
  unmet demand is protected in turn. The member whose need was kept gets it exactly when its
  guarantee under the moved cursor covers it or the needs then protected leave it free, and
  always when the ceiling splits evenly and the other member got all it asked for.
- A departure recorded by an acceptance that was cut off before its second write keeps the
  generation of that acceptance. If an older generation is accepted next, the target is
  recorded and not desired, yet not retiring. A departed target is retiring exactly when the
  generation that recorded it is not above the last valid one, so always when generations
  never go back.
- The proof that the worker ceiling survives the hand-over of recovered workers rests on
  the member that counts them sorting first and therefore being read first.

## Model

| member | source | states |
|---|---|---|
| FairShare.SharesPartitionExactlyInRange | manager/admission/coordinator.go:1258-1269 | the guaranteed shares add up to the available units if and only if the cursor is at most the contender count or there is one contender |
| FairShare.SharesNeverFallShort | manager/admission/coordinator.go:1258-1269 | for any cursor under Go's remainder the shares cover the available units and overshoot by less than one round |
| FairShare.OwnShareIsAllocatable | manager/admission/coordinator.go:1213-1238 | with the cursor in range a contender can always allocate its own share, whatever the others hold |
| FairShare.CursorHolderTakesTurn | manager/admission/coordinator.go:1213-1269 | the contender under the cursor can take a unit whenever one is available |
| FairShare.AllocatableMonotone | manager/admission/coordinator.go:1213-1238 | with the cursor in range more available units never shrink what a contender may take |
| FairShare.AllocatableNotMonotoneOutOfRange | manager/admission/coordinator.go:1213-1269 | out of range they can: three contenders, cursor 5, five units allow one and six allow none |
| Identity.LeaseIdTextInjective | manager/admission/identity.go:13-22 | two lease identities with the same text belong to the same profile, slot and sequence |
| Policy.Validate | manager/admission/policy.go:128-213 | the one-pass check accepts exactly the policies whose profiles are valid, unique and fit, and whose reservations together fit the budget |
| Policy.FindProfile | manager/admission/policy.go:225-232 | the lookup loop returns the first profile with the identity, or none |
| Leases.HeldMapSum | manager/admission/coordinator.go:1161-1167 | the per-profile holdings add up to the units of all leases, those of departed profiles included |
| Decisions.DecisionIsExact | manager/admission/coordinator.go:398-432 | the decision by units of leases and reservations: no free units; room in the own reservation; nothing beside the idle non-borrowable reservations of the others; and from the pool if and only if the unit cost fits after the sum of every other contender's guaranteed share not used beyond its own reservation |
| Decisions.PoolGrantLeavesGuarantees | manager/admission/coordinator.go:1213-1238 | a grant from the pool leaves every other contender, one by one, the part of its guaranteed share that it does not hold beyond its reservation |
| Ledgers.CompactIsBounded | manager/admission/state.go:406-427 | compaction keeps at most 4096 tombstones and keeps their sequences distinct and bounded |
| Ledgers.ValidIsAccepted | manager/admission/state.go:91-237 | the inductive ledger invariant implies the document check |
| Ledgers.EditKeepsValid | manager/admission/coordinator.go:187-772 | every guarded ledger edit keeps the invariant: disjoint lease and tombstone keys, sorted pending lists that name active leases, distinct tombstone sequences up to the decision sequence |
| Invariants.CommandKeepsInvariant | manager/admission/coordinator.go:187-992 | every command, whatever the clock, sweep order and saves, keeps ledger, store and memory consistent, has a deadline for exactly the provisional leases, and commits only enabled edits of its own kind after its sweep |
| Runs.EveryHostOk | manager/admission/coordinator.go:94-159 | from a fresh store every run of commands, crashes and restarts keeps the invariant |
| Runs.RunIsPath | manager/admission/coordinator.go:94-772 | any two moments of a run are linked by a path of enabled edits |
| Runs.OpenNeverRefuses | manager/admission/coordinator.go:94-129 | a restart never refuses a document that a run wrote, provided the discard can be saved |
| Replies.SweepLeavesLive | manager/admission/coordinator.go:1104-1148 | the sweep goes through if and only if nothing has expired or its save succeeds, and leaves exactly the leases that are active or before their deadline |
| Replies.AcquireAnswers | manager/admission/coordinator.go:316-396 | Acquire grants if and only if the key is valid, the sweep went through, nothing is fenced, the slot has no lease in force, the profile is known, the decision over the leases in force and the demand still wanted admits it, and the save succeeds; the new provisional lease, its identity, units and expiry, and every error or duplicate answer are given exactly |
| Replies.ActivateAnswers | manager/admission/coordinator.go:589-627 | Activate succeeds if and only if the lease is in force and, unless active already, the save succeeds; then the same worker is active without a deadline and is the answer; an expired lease gives LeaseExpired, none LeaseNotFound, and only then |
| Replies.RenewAnswers | manager/admission/coordinator.go:547-583 | Renew succeeds if and only if the lease is provisional and in force and the save succeeds; then only its expiry moves, in ledger and memory; each error if and only if its case holds |
| Replies.BindAnswers | manager/admission/coordinator.go:437-476 | a bind succeeds if and only if the lease in force has that name already, or none and the save succeeds; then the lease carries the name and nothing else changed; each error if and only if its case holds |
| Replies.AdoptAnswers | manager/admission/coordinator.go:482-541 | an adoption succeeds if and only if the profile is known and the save, where one is needed, succeeds; then the slot is active and accounted for, as the worker it was if its lease was in force, else under a newly issued lease |
| Replies.ReleaseAnswers | manager/admission/coordinator.go:633-648 | a lease in force leaves under a tombstone with its own identity, reason and sequence if the save succeeds; without one the answer is success if the slot has a tombstone and LeaseNotFound if not |
| Replies.ReconcileAnswers | manager/admission/coordinator.go:685-704 | the same with the evidence in the tombstone; rejected evidence changes nothing |
| Replies.PublishAnswers | manager/admission/coordinator.go:187-212 | a publication takes effect if and only if it is valid, newer and saved; it keeps exactly the fences of profiles it knows, unchanged, and drops the demand |
| Replies.BeginAnswers | manager/admission/coordinator.go:253-276 | BeginAdoption succeeds if and only if the profile is known and a fence stands or is saved; a new fence lists exactly the slots of the active leases, sorted |
| Replies.CompleteAnswers | manager/admission/coordinator.go:280-305 | CompleteAdoption succeeds if and only if there is no fence, or nothing is pending behind it and the save succeeds; it removes that fence and nothing else |
| Replies.DecisionIsRecorded | manager/admission/coordinator.go:800-823 | every well-formed lease command leaves a record of itself, its profile, the instant, the sequence and its answer, if that record is saved; nothing else touches the record |
| Replies.ActivatedExactlyBeforeDeadline | manager/admission/coordinator.go:589-627 | over runs with successful saves, Activate makes a provisional lease active if it comes before the deadline of the latest acquire or renewal, and answers LeaseExpired from then on |
| Replies.ActivatedWorkerStays | manager/admission/coordinator.go:589-739 | once Activate has succeeded, the worker is active with its identity, units and name at every later moment until its own removal, whatever crashes, restarts and policies come |
| Replies.StartIsBlank | manager/admission/coordinator.go:94-159 | a new process has no demand and no provisional lease, and its cursor is the decision sequence modulo 1000000007 |
| Replies.GrantRunsForConfiguredTime | manager/admission/coordinator.go:94-129 | a granted lease expires after the duration its process was started with, thirty seconds by default |
| Lifetimes.LeaseIdsAreNeverReissued | manager/admission/coordinator.go:361-396 | no two events of a run, restarts included, issue the same lease identity |
| Lifetimes.AcquireIssues | manager/admission/coordinator.go:316-396 | the lease that Acquire hands out is in the ledger and was issued by that very event |
| Lifetimes.RemovedIdNeverReturns | manager/admission/coordinator.go:706-739 | an identity that left the ledger never comes back |
| Lifetimes.ActiveLeaseEndures | manager/admission/coordinator.go:589-739 | an active lease keeps identity, units and bound name through time, policies and restarts until a release or reconcile of its own key succeeds |
| Lifetimes.RegistrationNameIsWrittenOnce | manager/admission/coordinator.go:437-476 | while a lease identity lives, a registration name once written never changes |
| Lifetimes.PolicyNeverMovesBack | manager/admission/coordinator.go:187-212 | over a run, restarts included, the policy in force stays the same or gets a newer generation |
| Expiry.DeadlineOrigin | manager/admission/coordinator.go:350-396 | a tracked deadline is the time of the latest acquire or renewal plus the lease duration |
| Expiry.PromotedOnlyBeforeDeadline | manager/admission/coordinator.go:482-627 | a provisional lease is promoted only strictly before its latest acquire or renewal plus the lease duration |
| Expiry.ExpiredIdIsNeverServed | manager/admission/coordinator.go:1104-1148 | once a lease is due and a lease command or Status sweeps, its identity is in no later ledger of the run |
| Removals.RepeatedRemovalSucceeds | manager/admission/coordinator.go:706-739 | over runs, a slot that left the ledger by release, reconciliation, expiry or restart answers a later Release or Reconcile with success, if it was not leased again and at most 4096 tombstones, its own included, were recorded since |
| Removals.NeverLeasedIsNotFound | manager/admission/coordinator.go:713-717 | removing a slot that no moment of the run ever leased gives LeaseNotFound |
| Removals.RemovalKnowsThePast | manager/admission/coordinator.go:706-739 | while the run has recorded at most 4096 tombstones, removing a slot without a lease succeeds if and only if an earlier moment leased it |
| Removals.ExpiryLeavesTombstone | manager/admission/coordinator.go:1104-1148 | an expired lease leaves a tombstone with its identity and the reason, unless more than 4096 expired at once |
| Demands.DemandStepHolds | manager/admission/coordinator.go:224-247 | what each of the twelve commands does to the demand of each profile: state it, drop it, or keep count and deadline |
| Demands.DemandIsLatestStatement | manager/admission/coordinator.go:337-394 | over runs the demand of a profile is what the latest SetDemand or Acquire stated, less the grant of that acquire, with a deadline thirty seconds after it, if nothing dropped it since; else it is none |
| Demands.StaleDemandIsGone | manager/admission/coordinator.go:1150-1159 | demand that is not stated again is gone for good once SetDemand, Acquire or Status runs thirty seconds after the statement |
| Budget.GrantedAcquireFitsBudget | manager/admission/coordinator.go:350-410 | after a granted acquire the units of all leases, also of departed profiles, fit the budget |
| Budget.HeldUnitsStayWithinBudget | manager/admission/coordinator.go:187-410 | without a new policy and without newly adopted workers the held units never exceed the larger of the budget and the units held before |
| Reservations.GrantKeepsCoveredExactly | manager/admission/coordinator.go:398-432 | a grant keeps free units above all idle protected reservations unless a borrowable owner takes units the shared pool would refuse, and exactly then not |
| Reservations.ReservationsStayCovered | manager/admission/coordinator.go:398-432 | from an empty ledger under one policy without borrowable reservations, free units always cover all idle reservations |
| Reservations.OwnerIsNeverRefused | manager/admission/coordinator.go:316-432 | in such a run an unfenced owner with room in its reservation is granted every fresh slot whose saves succeed |
| Scenarios.ReclaimedLoanBreaksProtection | manager/admission/coordinator.go:412-415 | with a borrowable reservation the protection fails: a run from a fresh store with three profiles and two units after which the protected owner, holding nothing, is refused |
| Adoption.PendingIsExactlyUnaccounted | manager/admission/coordinator.go:253-276 | as long as the policies in force keep the profile and no CompleteAdoption of it succeeds, the fence stands, and a worker is pending behind it if and only if it was active when the fence went up and has not been adopted, released or reconciled since |
| Adoption.FenceClearsExactlyWhenAccounted | manager/admission/coordinator.go:280-305 | a CompleteAdoption of such a fence clears it if and only if every worker that was active when it went up has been accounted for, given that its save succeeds |
| Adoption.FenceStandsExactly | manager/admission/coordinator.go:187-305 | over any stretch of a run, restarts and publications included, a fence stands throughout if and only if every policy in force knows the profile and no CompleteAdoption of it succeeds |
| Adoption.StandingFenceIsKept | manager/admission/coordinator.go:253-276 | an event that meets a standing fence never commits a second fence for that profile, so a repeated BeginAdoption cannot reset what is pending |
| Adoption.FencedHostGrantsNothing | manager/admission/coordinator.go:331-333 | while any profile is fenced no acquire succeeds, and after its sweep the error is the pending adoption |
| FairTurns.RotationStep | manager/admission/coordinator.go:389-394 | the cursor moves on by one, modulo the contenders, exactly at grants from the shared pool |
| FairTurns.TurnHolderIsAdmitted | manager/admission/coordinator.go:398-432 | a contender of unit cost 1 under the cursor is admitted whenever a unit is free and unprotected |
| FairTurns.PassedOverAtMostNMinusOneTimes | manager/admission/coordinator.go:389-432 | with n fixed contenders a servable one of unit cost 1 would be granted within n - 1 shared-pool grants from a cursor in range, and within n from any cursor |
| FairTurns.AdmittedIsGranted | manager/admission/coordinator.go:316-396 | an admitted request on a fresh slot is granted when no fence stands and the saves succeed |
| StatusAgreement.StatusReasonIsNextError | manager/admission/coordinator.go:1002-1073 | at one instant the withholding reason is exactly the error of the next acquire on a fresh slot, and no reason means it is granted unless its save fails |
| StatusAgreement.PromisedWorkerIsGranted | manager/admission/coordinator.go:903-992 | at one instant Status promises a worker if and only if the next acquire is granted and Status finds room by its own count; promise and grant agree if and only if something is withheld or Status finds room, and always when only policy profiles hold units or the cursor is in range |
| StatusLines.StatusAnswers | manager/admission/coordinator.go:903-1073 | Status reports if and only if its sweep goes through: one line per policy profile in the order of identities, held, borrowed, pending, reachable and allocatable units and workers and the free units each as a sum over leases in force, reservations and unused guarantees |
| Scenarios.PromiseFailsWhenBlind | manager/admission/coordinator.go:954-990 | a run from a fresh store after which Status promises no worker and gives no reason, while an acquire at the same instant is granted |
| Restart.RestartRestoresLedger | manager/admission/coordinator.go:94-159 | a crash at any moment and a later successful start bring back that moment's active leases, fences, policy, epoch and last decision; the newest 4096 discarded provisional leases get tombstones, and an earlier tombstone stays if and only if fewer than 4096 are newer, the discarded included |
| Tallies.HeldUnitsByProfile | manager/admission/coordinator.go:1161-1167 | the loop over the leases, in any order, computes each profile's units |
| Tallies.ProtectedNonBorrowable | manager/admission/coordinator.go:1173-1182 | the loop computes the other profiles' idle non-borrowable reservations |
| Tallies.ContendersOf | manager/admission/coordinator.go:1240-1253 | the loop and sort yield the sorted known profiles with positive demand |
| Tallies.FairAllocatableUnits | manager/admission/coordinator.go:1213-1238 | the loop computes what the requester may take after the others' unused guarantees |
| Tallies.Evaluate | manager/admission/coordinator.go:398-432 | the computed decision is the budget, reservation, protection and fair-turn decision |
| Tallies.CompactTombstones | manager/admission/state.go:406-427 | sorting newest first and keeping 4096 keeps exactly the tombstones with fewer than 4096 newer ones |
| Tallies.ActiveLeaseSlotKeys | manager/admission/coordinator.go:741-750 | the loop and sort yield the sorted slots of the profile's active leases |
| Tallies.MarkAccounted | manager/admission/coordinator.go:752-772 | removal by binary search is removal of the slot from the pending set, and reports whether it was there |
| Tallies.CheckDocument | manager/admission/state.go:91-237 | the loops accept exactly the documents that meet every structural condition |
| Ordering.SearchStrings | manager/admission/coordinator.go:761-765 | binary search finds the first element that is not below the key, and hits exactly when the key is present |
| Ordering.CutIsWithout | manager/admission/coordinator.go:766-771 | cutting out the hit of the search removes exactly that element |
| Coordinators.Store.Save | manager/admission/state.go:265-270 | a save replaces the document or fails and leaves it |
| Coordinators.Coordinator.Open | manager/admission/coordinator.go:94-159 | opening equals the modelled start: refused, failed, or the discarded ledger with a seeded cursor |
| Coordinators.Coordinator.ApplyPolicy | manager/admission/coordinator.go:187-212 | takes exactly the publication step, whose effect Replies.PublishAnswers and Adoption.FenceStandsExactly give; the invariant is kept |
| Coordinators.Coordinator.SetDemand | manager/admission/coordinator.go:224-247 | forgets stale demand, then replaces or deletes the pending count of a known profile; an invalid request changes nothing; the invariant is kept |
| Coordinators.Coordinator.BeginAdoption | manager/admission/coordinator.go:253-276 | raises a fence with the sorted slots of the active leases unless one stands; the invariant is kept |
| Coordinators.Coordinator.CompleteAdoption | manager/admission/coordinator.go:280-305 | clears a fence with nothing pending, refuses one with pending workers; the invariant is kept |
| Coordinators.Coordinator.Acquire | manager/admission/coordinator.go:316-396 | takes exactly the acquire step, whose answers Replies.AcquireAnswers and Decisions.DecisionIsExact give: grant, demand and cursor change only after the save; the invariant is kept |
| Coordinators.Coordinator.BindRegistration | manager/admission/coordinator.go:437-476 | after the sweep writes the name into a lease without one, accepts the same name again, refuses another; the invariant is kept |
| Coordinators.Coordinator.Adopt | manager/admission/coordinator.go:482-541 | after the sweep accounts for an active lease, promotes a provisional one or creates an active one, whatever the budget; the invariant is kept |
| Coordinators.Coordinator.Renew | manager/admission/coordinator.go:547-583 | refuses a lease that this sweep expired, otherwise moves the deadline of a provisional lease in ledger and memory; the invariant is kept |
| Coordinators.Coordinator.Activate | manager/admission/coordinator.go:589-627 | takes exactly the activation step, whose answers Replies.ActivateAnswers gives; the invariant is kept |
| Coordinators.Coordinator.Release | manager/admission/coordinator.go:633-648 | takes exactly the release step, whose answers Replies.ReleaseAnswers and, over runs, Removals.RemovalKnowsThePast give; the invariant is kept |
| Coordinators.Coordinator.Reconcile | manager/admission/coordinator.go:685-704 | takes exactly the reconcile step, whose answers Replies.ReconcileAnswers gives; the invariant is kept |
| Coordinators.Coordinator.Entomb | manager/admission/coordinator.go:706-739 | replaces a lease by its tombstone and accounts for it, in the modelled step |
| Coordinators.Coordinator.Status | manager/admission/coordinator.go:903-992 | sweeps, forgets stale demand and reports the modelled snapshot |
| Coordinators.Coordinator.ProfileCapacity | manager/admission/coordinator.go:1002-1073 | the capacity line equals its definition |
| Coordinators.Coordinator.SweepExpired | manager/admission/coordinator.go:1104-1148 | sweeps exactly the due leases, in the order of the loop, in one save |
| Coordinators.Coordinator.ExpireStaleDemand | manager/admission/coordinator.go:1150-1159 | forgets exactly the demand whose deadline has passed |
| Coordinators.Coordinator.RecordDecision | manager/admission/coordinator.go:800-823 | records the decision and nothing else, and ignores a failed save |
| ProfileCeiling.GrantIsFairAndFits | manager/autoscaler/admission.go:99-141 | a grant never exceeds request or free capacity, is at least the unused guarantee as far as capacity and request go, and one beyond it leaves free the sum, over every other member that wants more than it holds, of the smaller of that difference and its share |
| ProfileCeiling.GrantIsExact | manager/autoscaler/admission.go:99-141 | the grant is the request up to the larger of the unused guarantee and what the others' needs leave free, and nothing without free capacity |
| ProfileCeiling.ProtectedNeedIsServedExactly | manager/autoscaler/admission.go:84-142 | after such a grant the protected need of another member is still free; asking next it is granted that much if and only if its guarantee under the moved cursor covers it or the needs then protected from it leave it free |
| ProfileCeiling.EvenSplitServesProtectedNeed | manager/autoscaler/admission.go:84-142 | always, when the ceiling splits evenly and the first member got all it asked for |
| ProfileCeiling.ProtectedNeedCanBeLost | manager/autoscaler/admission.go:84-142 | else it can be lost: ceiling 2, three members, cursor 1, where the member whose need of 1 was kept free gets nothing |
| ProfileCeiling.IdleMembersProtectNothing | manager/autoscaler/admission.go:115-130 | when no other member wants more than it holds, the grant is the request up to the free capacity |
| ProfileCeiling.SharesPartitionCeiling | manager/autoscaler/admission.go:180-195 | with the cursor at most the member count the shares add up to the ceiling exactly |
| ProfileCeiling.AdmissionController.Join | manager/autoscaler/admission.go:39-50 | adds a member once and keeps the cursor in range |
| ProfileCeiling.AdmissionController.Leave | manager/autoscaler/admission.go:52-62 | removes the member and brings the cursor back into range |
| ProfileCeiling.AdmissionController.SetDemand | manager/autoscaler/admission.go:67-78 | replaces one member's demand and nothing else |
| ProfileCeiling.AdmissionController.Reserve | manager/autoscaler/admission.go:84-142 | the loops compute the grant that GrantIsExact gives, record it in flight, keep the unmet demand and advance the cursor in range |
| ProfileCeiling.AdmissionController.Settle | manager/autoscaler/admission.go:146-157 | releases in-flight reservations of one member and nothing else |
| CeilingRuns.RecoveredIsFirst | manager/autoscaler/manager.go:87-90 | the member that counts recovered workers is read before every target |
| CeilingRuns.StepIsSafe | manager/autoscaler/scaler.go:790-830 | no step of any target, during or outside a reservation, pushes the commitment over the ceiling |
| CeilingRuns.StepsFollowController | manager/autoscaler/admission.go:39-157 | every step of the interleaving does to members and cursor what the controller's methods do |
| CeilingRuns.CeilingIsNeverExceeded | manager/autoscaler/admission.go:84-157 | in every interleaving real workers plus launchable reservations stay within the ceiling once they are within it, although every count is read at a different instant |
| CeilingRuns.SharesPartitionAlways | manager/autoscaler/admission.go:180-195 | in every reachable state the members' shares partition the ceiling exactly |
| HostLeaseRelease.ParseDocument | manager/autoscaler/host_lease_cleanup.go:138-190 | the loop accepts exactly documents with complete records and no slot twice |
| HostLeaseRelease.SavedReleasesReload | manager/autoscaler/host_lease_cleanup.go:100-136 | what a save writes, a later start accepts and reads back unchanged |
| HostLeaseRelease.NoLeaseIsStranded | manager/autoscaler/scaler.go:1431-1618 | for every pattern of failed saves, failed releases, stopping workers and restarts that load, a slot a runner ever held and that no event stranded is held by a runner or a running worker, in the stored document, or confirmed released |
| HostLeaseRelease.SafeStep | manager/autoscaler/scaler.go:3375-3426 | an event loses a safe slot if and only if it strands it: a restart or the end of the last worker while nothing else accounts for the slot |
| HostLeaseRelease.RestartKeepsExactly | manager/autoscaler/scaler.go:340-359 | a restart that loads keeps a slot if and only if a running worker, the document or a confirmed release accounts for it, and otherwise nothing is left of it |
| HostLeaseRelease.LostUntilNamed | manager/autoscaler/scaler.go:1431-1618 | a lost slot stays out of every runner, worker, record and release until a launch or a release names it again |
| HostLeaseRelease.FailedQueueingStrandsLease | manager/autoscaler/scaler.go:3391-3409 | it happens: launch, the worker stops, the write-ahead save fails, restart |
| HostLeaseRelease.FailedLoadKeepsExactly | manager/autoscaler/scaler.go:340-359 | after a failed load a recorded slot that is not queued again stays stored if and only if no save has succeeded since |
| HostLeaseRelease.QueuedAgainIsStored | manager/autoscaler/scaler.go:1431-1464 | a slot queued again with a successful write-ahead save is stored or released afterwards |
| HostLeaseRelease.FailedLoadStrandsLease | manager/autoscaler/scaler.go:340-359 | after a failed load one settled, unreleased runner is enough: the document then holds a formerly recorded slot if and only if it is that runner's |
| HostLeaseRelease.RunnerScaler.SettleStoppedRunner | manager/autoscaler/scaler.go:3375-3426 | the runner goes only after its lease is durably queued; a failed queueing keeps it |
| HostLeaseRelease.RunnerScaler.ReleaseHostLease | manager/autoscaler/scaler.go:1569-1592 | records the lease, then attempts its release, and keeps the record when that fails |
| HostLeaseRelease.RunnerScaler.RetryPendingReleases | manager/autoscaler/scaler.go:1598-1618 | the loop attempts exactly the records that are due when their turn comes, in slot order |
| HostLeaseRelease.RunnerScaler.AttemptRelease | manager/autoscaler/scaler.go:1468-1542 | a confirmed release resolves its record, a failed one stays with retry data |
| HostLeaseRelease.RunnerScaler.constructor | manager/autoscaler/scaler.go:340-359 | a start restores the stored records, or none when the load fails |
| ReleaseRetries.RetryRoundIsExact | manager/autoscaler/scaler.go:1598-1618 | a retry round tries a pending release if and only if its next attempt is not set or has come; a confirmed answer releases the slot, any other counts the attempt and sets the next one fifteen seconds later, cut to the second |
| ReleaseRetries.NextAttemptsAreBacked | manager/autoscaler/scaler.go:1468-1542 | at every moment of a run, restarts included, every next attempt in memory and in the document was set by a failed attempt of its slot |
| ReleaseRetries.RetriedAfterDelay | manager/autoscaler/scaler.go:1468-1618 | a retry round at least fifteen seconds after every failed attempt of a pending slot tries its release, whatever restarts came between, and a confirmed answer releases it |
| ReleaseRetries.NotRetriedEarly | manager/autoscaler/host_lease_cleanup.go:192-201 | a failed release stays pending, untried, through every retry round of its process before that |
| Retirement.NoTargetIsLost | manager/autoscaler/manager.go:1026-1149 | at every crash point each target of any accepted state is in the last valid state, has a retirement record, or is finalised, and no desired target counts as finalised |
| Retirement.ReloadsExactlyWithPositiveMaxima | manager/autoscaler/retirement.go:76-103 | a start accepts the stored intents if and only if none has maximum zero |
| Retirement.PositiveMaximaAlwaysReload | manager/autoscaler/retirement.go:54-105 | when every accepted target has a positive maximum, every start accepts the intents |
| Retirement.ZeroMaximumBlocksRestart | manager/autoscaler/retirement.go:76-80 | a target with maximum zero that leaves the desired state leaves an intent that no start accepts |
| Retirement.ZeroMaximumBlocksFreshRestart | manager/autoscaler/retirement.go:76-80 | it happens two acceptances after a fresh start |
| Retirement.RecordsWithNewRetirements | manager/autoscaler/manager.go:1084-1117 | the loop adds an intent for exactly the targets that leave and keeps existing ones |
| Retirement.ParseRecords | manager/autoscaler/retirement.go:54-105 | the loop accepts exactly the complete records |
| Retirement.AutoscalerManager.Start | manager/autoscaler/manager.go:934-951 | a manager starts if and only if the stored intents are acceptable, with memory a copy of the files |
| Retirement.AutoscalerManager.AcceptDesiredTransition | manager/autoscaler/manager.go:1026-1069 | writes intents, then the last valid state, then the tidied intents; with any write failing the files are those of that crash point, and memory stays a copy of them |
| Retirement.AutoscalerManager.EnsureRetirementStateCurrent | manager/autoscaler/manager.go:1119-1136 | drops the intents of targets that are desired again, writes only when something changes, and memory stays a copy of the files |
| Retirement.AutoscalerManager.PrepareRetirementStartup | manager/autoscaler/retirement.go:107-135 | commits attempt count and backoff deadline before the attempt |
| Retirement.AutoscalerManager.MarkRetirementStarted | manager/autoscaler/manager.go:1338-1346 | clears attempt count and retry time of a retiring target once that is saved |
| Retirement.AutoscalerManager.FinaliseRetirement | manager/autoscaler/manager.go:1338-1420 | drops the intent of a retiring target, and only of one |
| RetirementRuns.AcceptanceIsExact | manager/autoscaler/manager.go:1026-1136 | a newer state whose writes succeed becomes the last valid one, with an intent for exactly the recorded and formerly desired targets it does not want: earlier intents as they were, new ones with the target and the generation |
| RetirementRuns.IntentsComeFromDepartures | manager/autoscaler/manager.go:1084-1117 | at every moment of a run each stored intent carries the target and generation of the acceptance that recorded its departure |
| RetirementRuns.RetiringExactly | manager/autoscaler/manager.go:1310-1320 | a recorded target that is not desired is retiring if and only if that generation is not above the last valid one |
| RetirementRuns.DepartedTargetsRetire | manager/autoscaler/manager.go:1310-1320 | if the generations handed to the manager never go back, every recorded target that is not desired is retiring |
| RetirementRuns.OvertakenDepartureStalls | manager/autoscaler/manager.go:1046-1051 | if they do it can fail: generation 5 is cut off after its first write, generation 3 is accepted, and the departed target is not retiring |
| RetirementRuns.PreparationIsExact | manager/autoscaler/retirement.go:107-135 | a preparation of a retiring target whose retry time has come counts the attempt, at most 1000, and sets the retry time by the backoff from one to fifteen minutes; any other changes nothing |
| RetirementRuns.CompletionIsExact | manager/autoscaler/manager.go:1338-1420 | a saved success starts the pacing over, a saved completion drops exactly that intent |
| RetirementRuns.StartupsArePaced | manager/autoscaler/retirement.go:107-135 | over runs, restarts included, two consecutive failed start-up attempts of one retirement lie at least the backoff delay apart, cut to the second |
| Backoff.BoundedExponentialBackoff | manager/autoscaler/backoff.go:18-44 | the doubling loop returns the smaller of base times a power of two and the maximum, and never computes more than the maximum |
| Backoff.DelayMonotone | manager/autoscaler/backoff.go:18-44 | later failures never wait less and no delay exceeds the maximum |
| Backoff.RateLimitDelayMonotone | manager/autoscaler/manager.go:126-144 | rate-limit delays grow with the failures between fifteen minutes and one hour, plus the jitter |
| Backoff.ExitRetryMonotone | manager/autoscaler/scaler.go:1004-1016 | worker-exit delays grow with the failures and, jitter included, stay within the maximum |
| RateGate.NoStartBeforeDeadline | manager/autoscaler/control_plane_gate.go:64-184 | after a saved rate limit no operation starts before the deadline while the process lives, and across restarts with the same credential none before the deadline cut to the second; whole-second deadlines hold exactly |
| RateGate.RestartLosesTheFraction | manager/autoscaler/control_plane_gate.go:186-198 | for every gate, saved rate limit and later restart with the same credential operations may start exactly from the deadline cut to the second on, hence early if and only if the deadline has a fraction |
| RateGate.LimitLasts | manager/autoscaler/control_plane_gate.go:171-184 | the n-th limit since the last clearing closes the gate for fifteen minutes doubled n - 1 times, at most an hour, plus the jitter |
| RateGate.StartsExactly | manager/autoscaler/control_plane_gate.go:118-137 | the first operation may start if and only if the deadline has come and the guard is saved, a further one unless a limit is in force; each start counts one in flight |
| RateGate.CrashGuardHolds | manager/autoscaler/control_plane_gate.go:64-137 | after a crash during a first operation the next process may start one exactly from a minute plus jitter after that start on, cut to the second, and without earlier limits never later than that long after its own start |
| RateGate.ClearedGateIsOpen | manager/autoscaler/control_plane_gate.go:139-160 | after the last operation ended without a limit the gate is open at once, in this process and the next, and counts failures from zero |
| RateGate.ControlPlaneRateGate.constructor | manager/autoscaler/control_plane_gate.go:64-111 | loading restores failures and deadline for the same credential only, and shortens a deadline that no rate limit set |
| RateGate.ControlPlaneRateGate.Start | manager/autoscaler/control_plane_gate.go:118-137 | refuses while waiting, arms the crash deadline before the first operation in flight, and starts nothing when that cannot be saved |
| RateGate.ControlPlaneRateGate.End | manager/autoscaler/control_plane_gate.go:139-160 | clears file and failures only after the last operation in flight ended without a rate limit |
| RateGate.ControlPlaneRateGate.ObserveResult | manager/autoscaler/control_plane_gate.go:162-169 | records a limit seen outside a gated operation, and nothing else |
| RateGate.ControlPlaneRateGate.LimitNow | manager/autoscaler/control_plane_gate.go:171-184 | counts the failure up to its cap and sets and saves the backoff deadline |
| Journals.JournalAnswersAsHistory | manager/autoscaler/diagnostics.go:502-610 | at every moment the bounded journal gives the verdict of the complete history, its sequences ascend strictly, and below saturation occurrences are conserved; a restart continues from the stored journal, so events that were never saved are not part of the history |
| Journals.EvictedCounterIsExactForSingles | manager/autoscaler/diagnostics.go:502-508 | retained occurrences plus the eviction counter equal the recorded events if and only if every evicted entry stood for one |
| Journals.CounterKeepsPaceExactly | manager/autoscaler/diagnostics.go:502-508 | recording an event keeps that tally if and only if nothing is evicted or the entry that goes, readable beforehand, stands for one occurrence |
| Journals.EvictedCounterFallsBehind | manager/autoscaler/diagnostics.go:502-508 | a run of 66 events after which the tally is short |
| Journals.CoalesceKeepsVerdict | manager/autoscaler/diagnostics.go:510-527 | merging a repeated event gives the verdict that appending it would give |
| Journals.EvictKeepsVerdict | manager/autoscaler/diagnostics.go:582-591 | evicting an entry never changes the verdict |
| Journals.CoalesceConserves | manager/autoscaler/diagnostics.go:529-535 | below saturation merging adds exactly the new occurrences |
| Journals.RestoreOk | manager/autoscaler/diagnostics.go:320-334 | coalescing and trimming the stored entries again keeps verdict, order and tally |
| JournalForm.MergeIsExact | manager/autoscaler/diagnostics.go:510-556 | an event that repeats the latest entry of its scope in outcome and reason, and is no success, takes its place with the occurrences added; any other is appended |
| JournalForm.RepeatsAreMerged | manager/autoscaler/diagnostics.go:320-556 | at every moment of every run two entries that repeat each other have another entry of their scope between them, and a restart reads the stored journal back unchanged |
| JournalForm.OldestGoesFirst | manager/autoscaler/diagnostics.go:502-591 | beyond 64 entries the oldest goes, or the second oldest if the oldest is a recovery failure that nothing later decided, and the counter moves by one |
| Journals.FindCoalescible | manager/autoscaler/diagnostics.go:537-556 | the backward scan finds the last entry of the scope if outcome and reason agree |
| Journals.FindUnresolved | manager/autoscaler/diagnostics.go:593-611 | the backward scan finds the unresolved recovery failure |
| Journals.DiagnosticsRecorder.Append | manager/autoscaler/diagnostics.go:502-508 | coalesces and trims as defined |
| Journals.DiagnosticsRecorder.TrimToCapacity | manager/autoscaler/diagnostics.go:504-507 | evicts one entry after the other until the capacity holds |
| Journals.DiagnosticsRecorder.constructor | manager/autoscaler/diagnostics.go:320-338 | a start coalesces and trims the stored entries |

## Left out

- Atomic file writes: a save either replaces the document or fails without effect; the
  code can also report a failure after the rename took effect.
- Socket server, client, command line, JSON encoding and error texts; which of several
  validation errors is reported first; the translation of errors into wire codes.
- Regular expressions are modelled as character predicates; evidence sanitising is an
  optional value that is absent when the text is rejected.
- Integer overflow of sequences, epochs and unit sums; all integers are unbounded.
- Legacy document versions and their migration.
- Coordinators.Coordinator.Status: reports the ledger as a value; the sorted listings of
  leases, tombstones and fences and the split of held units into active and provisional
  ones would only add easy members.
- Coordinators.Coordinator.RecordDecision: keeps the error itself instead of its category,
  which is a finite table.
- Runs of the coordinator assume one process at a time on one store.
- FairTurns.PassedOverAtMostNMinusOneTimes: unit costs above 1 are not covered, because
  the code promises them no turn.
- CeilingRuns.CeilingIsNeverExceeded: workers of targets that left, a reservation for an
  unregistered target, and a second scan for recovered workers are outside the count,
  because the controller does not count them either.
- HostLeaseRelease.NoLeaseIsStranded: covers slots that a runner held; a lease acquired
  for a launch that never produced a runner is queued on a best-effort basis only. That the
  host coordinator's adoption fence later reconciles a lost lease is not modelled.
- RateGate.NoStartBeforeDeadline: assumes a clock that does not go back and one
  credential; a gate without a file and the limit on concurrent operations are not modelled.
- Retirement: two records under one key in an edited document are not modelled, and the
  calls that start and close controllers are reduced to their outcome.
- Journals.DiagnosticsRecorder.constructor: takes the stored entries as they are; the code
  drops malformed ones and sorts by sequence, which changes nothing in a journal it wrote.
- Journals: normalisation of legacy entries, rejected entries, observation times and the
  health summaries are not modelled.
- Docker, the GitHub API, listeners, host pressure, telemetry, configuration parsing and
  the rest of the scaler: foreign calls or reporting with easy members only.
