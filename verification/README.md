# A model of the ticket-selling engine, and proofs about it

The engine sells tickets for events with and without a seat map. Stock lives in Redis and is changed by short
atomic scripts; orders live in Postgres; between the two there are a stream, retrying workers, a dead-letter path
and an outbox. This project models that engine and proves what it is built to guarantee.

**Seat allocation and the free-run index.** `RunSets` is the mathematics of maximal runs of free seats: positive,
disjoint, non-adjacent runs are determined by the seats they cover. `Seating` is the placement algorithm with its
loop, `SeatingOptimality` shows that three candidate cuts per run are enough for the global optimum, `SeatingScore`
what a score means (the quality of the seats against what the rest of the zone can still sell), `SeatingRanks` what
the list of suggestions is without building it, `SeatingPotential` what any sequence of placements and releases does
to orphan seats and to the potential, and `SeatOrphans` carries the orphan bound over to the live scripts and the
placement loop. `SeatingLists` has the loops of `occupy` and `release`. `SeatRuns` is the Lua side: a class with the
`runs` and `ends` hashes, its methods written command by command; `SeatHash` relates the hashes to a set of runs,
`SeatZone` is the zone as the scripts see it, `SeatScripts` what the two scripts promise key by key, `SeatRefinement`
ties both sides to the Python functions. `SeatComplement` and `SeatRebuild` relate the runs to the intervals held in
the database, `SeatReserve` is the read-compute-swap loop with arbitrary scripts of other clients (`SeatOthers`)
running at every point where the code waits.

**The order pipeline.** `UnseatedPipeline` and `SeatedPipeline` are transition systems: every Redis script, SQL
transaction and MULTI/EXEC block is one step, workers hold their place between steps and may stop anywhere; a
reconcile or rebuild is a backlog check, database reads and writes with everybody else's steps in between.
`UnseatedLedger`, `UnseatedSteps` and `UnseatedSafety` prove conservation of stock and quota over every run;
`SeatOwners`, `SeatedSteps` and `SeatedSafety` prove that every seat has exactly one fate, `SeatedLedger` that quota
and event counter of a seated event are what the live claims add up to. Returning the seats of a seated order takes
three steps, and between deleting the hold row and running the script the seats are in limbo; `SeatedPromises` says
what a processed outbox row is worth then. `UnseatedReconcile` and `SeatedRebuild` say exactly when a reconcile or
rebuild that runs among live traffic is right. `UnseatedHistory` and `SeatedHistory` follow every accepted request to
its order or its refund, `UnseatedClaims` what its buyer is told meanwhile. `OrderWorker` and `SeatReturn` hold the
workers' own code as classes whose jobs are shown to be runs of those systems. `Inventory`, `Quota`, `Delivery` and
`Sums` are shared parts.

**Orders and payments.** `OrderRows` is one order row under compare-and-swap with writers that hold stale snapshots.
`Payments` adds the PaymentIntent, which may succeed or be canceled at any time, and everyone who races to move the
order out of PENDING, `PaymentTimeout` the one race in which the timeout cron ends an order with a payment; `Checkout`
has the webhook receiver and the Stripe-first sweep as code, and `PaymentRuns` a run to each end of an order.

**The front of the sale.** `WaitingRoom` is the lottery queue as a function of the clock, `AdmissionToken` the
single-use token around a submission (`SeatedAdmission` with the placement loop behind it), `RateLimit` the
fixed-window limiter, `SingleFlight` and `EventCache` the two layers against cache stampedes, `VenueLabels` (with
`Decimal`) the house numbers of a row.

Properties that turned out not to hold of the code are kept as such, with an exact condition for all inputs and a run
or input that breaks them:

- A reconcile checks the stream only. What its writes get wrong is, seat for seat, what was in flight or owed at the
  read plus what is reserved minus what is given back until the write (`StockWriteIsRightIff`, `QuotaWriteIsRightIff`);
  in the order of the code it conserves seats if and only if nothing is owed at the read and nothing is reserved until
  the write (`ReconcileInCodeOrder`). Runs from a fresh event: `OwedStateIsReachable`, `LostReservationFromTheStart`.
- A rebuild checks the stream only. One seat is written right if and only if being unseen at the read and claims until
  the write are made up for by give-backs until the write (`RebuiltSeatIsRightIff`); in the order of the code the runs
  are right if and only if nothing is in limbo at the read and nothing is claimed until the write
  (`RebuildInCodeOrder`), and a pending return still works if and only if its seats were all held at the read
  (`ReturnWorksIff`, `RebuildIsSafeIff`). Runs from a fresh zone: `UnsafeRebuildFromTheStart`,
  `LostClaimFromTheStart`. A rebuild resets the zone's counter and not the event's; the two still agree if and only if
  no rebuild met an order in limbo (`EventAgreesIff`).
- A processed outbox row of a seated order does not mean that the seats are back: it does if and only if the order is
  not in limbo (`ProcessedMeansBackIff`, `ProcessedMeansReturnedIff`). A relay that finds no hold row keeps the promise if
  and only if the marker is set or another worker has read the hold row and is about to run the script
  (`RelayKeepsPromiseIff`). The run from a fresh zone in which nobody ever returns the seats is `LeakFromTheStart`. The
  comments on `expire_order` and on the outbox promise that the relay eventually returns the seats; for seated orders
  the code does not, as the comment on `release_order_seat` admits, and the model follows the code.
- The timeout cron skips orders with a payment, but ends one whose payment was linked after its SELECT, and only those
  (`CronEndsLinkedIff`); `ChargedOrderEndedByCron` is such a run, up to the refund.
- The release script and `release` disagree on blocks the zone does not know (`ReleaseRefinesRelease`,
  `UnknownBlockIsNotChecked`). That input cannot reach the script from this system: the claim script and the CHECK on
  `seat_holds.start_pos` both exclude a negative start, so this is a statement about the script alone.
- The CHECK on paid-before-confirmed rejects a row if and only if the transition to CONFIRMED was stamped earlier than
  the one to PAID (`ClockDecidesTheChecks`), whatever the interleaving and the clock.
- Retry-After may end before the window does, because Redis rounds the remaining time to whole seconds: by less than
  half a second, and exactly when the remaining time was rounded down (`RateLimit.Limiter.Enforce`).

Assumptions that hold throughout: Lua scripts, SQL transactions and MULTI/EXEC blocks are atomic; claims, release
markers and consumed tokens do not expire within a run; scores, qualities and times are real numbers.

## Model

| member | source | states |
|---|---|---|
| RunSets.CanonicalForm | app/services/seat_runs.py:348-353 | two sets of maximal runs that cover the same free seats are equal |
| RunSets.OccupySetMeaning | app/services/seat_runs.py:396-409 | cutting an interval out of a run removes exactly those seats and leaves only maximal runs |
| RunSets.ReleaseSetMeaning | app/services/seat_runs.py:500-517 | returning a taken interval frees exactly those seats and leaves only maximal runs |
| RunSets.ReleaseUndoesOccupy | app/services/seating.py:320-389 | releasing what was just occupied restores the zone's runs |
| RunSets.OccupyUndoesRelease | app/services/seating.py:320-389 | occupying what was just released restores the zone's runs |
| RunSets.SeatsOccupy | app/services/seat_runs.py:411-414 | the free total drops by exactly the seats taken |
| RunSets.SeatsRelease | app/services/seat_runs.py:519-521 | the free total rises by exactly the seats returned |
| Seating.Allocate | app/services/seating.py:275-296 | the loop returns the head of the sorted list of legal anchors of all runs, and nothing exactly when there is none |
| Seating.BestHeadsTheList | app/services/seating.py:299-317 | the winner of the loop is the first legal anchor |
| Seating.CandidateIsLegal | app/services/seating.py:242-272 | every candidate is a cut the policy permits |
| Seating.CandidateExists | app/services/seating.py:242-272 | a run yields a candidate exactly when it has a legal cut |
| SeatingOptimality.AllocateIsOptimal | app/services/seating.py:242-296 | the chosen score is the maximum over every legal offset of every run, and nothing is chosen exactly when no offset is legal |
| SeatingScore.ScoreIsQualityLessLoss | app/services/seating.py:213-239 | a placement's score is the quality of its seats, one by one, less the weight times the drop of the zone's potential beyond the seats sold |
| SeatingScore.AllocateKeepsTheMost | app/services/seating.py:275-296 | of all permitted cuts in the zone the chosen one keeps the most: seat quality sold plus weighted potential left |
| SeatingScore.CostCountsSingles | app/services/seating.py:188-210 | a cut costs 1 - phi(1) for each single seat it leaves and earns as much for one it sells, and nothing else |
| SeatingScore.OrphanBeatsCleanCut | app/services/seating.py:53-55 | a single free seat beats a cut that leaves no single seat if and only if the quality given up is below lambda * (1 - phi(1)) |
| SeatingScore.ThresholdInPractice | app/services/seating.py:50-55 | with the numbers in use that threshold is 1.05 |
| SeatingScore.SinglesFillOrphans | app/services/seating.py:196-204 | a buyer of one ticket gets a single free seat as soon as one lies within the threshold of every clean cut |
| SeatingScore.LegalCutsLeaveEnough | app/services/seating.py:258-272 | a cut is permitted exactly when it is flush with an end and leaves nothing or `min_run`, or leaves enough on both sides where middle cuts are on |
| SeatingScore.LegalInPractice | app/services/seating.py:86-89 | the normal policy forbids exactly the end cuts that leave one seat, the end-of-sale policy none |
| SeatingScore.WindowIsItsSeats | app/services/seating.py:154-162 | a window's quality is the sum over its seats, each losing half a decay per half seat off centre |
| SeatingScore.IdealStartIsSymmetric | app/services/seating.py:164-166 | the ideal start is symmetric, or of the two nearest the even one |
| SeatingScore.ClampIsNearest | app/services/seating.py:268-272 | the middle cut tried is the one of its window nearest the ideal start |
| SeatingRanks.AnchorsAreRanked | app/services/seating.py:299-317 | the list is in strict order: score, then lower block, then lower seat, nothing twice |
| SeatingRanks.AnchorsAreSuggestions | app/services/seating.py:299-317 | it holds exactly the permitted cuts among both ends and one middle offset of every run |
| SeatingRanks.PlaceInTheList | app/services/seating.py:299-317 | exactly k suggestions are better than number k of the list |
| SeatingRanks.AllocateTakesTheBest | app/services/seating.py:299-317 | `allocate` returns a placement if and only if it is a suggestion that nothing is better than |
| SeatingRanks.BetterCutsAreSuggested | app/services/seating.py:258-266 | without middle cuts every permitted cut better than a placement is among the better suggestions |
| SeatingOptimality.ClampBeatsTheWindow | app/services/seating.py:258-272 | one clamped middle cut beats every cut in the middle window |
| SeatingOptimality.RisesToIdeal | app/services/seating.py:157-166 | window quality does not fall on the way up to the rounded ideal start |
| SeatingOptimality.FallsFromIdeal | app/services/seating.py:157-166 | window quality does not rise beyond the rounded ideal start |
| SeatingOptimality.MiddleCutsAreFree | app/services/seating.py:67-83 | with at least two seats on either side the cut cost is zero |
| SeatingOptimality.CandidatesBeatLegalOffsets | app/services/seating.py:242-272 | some candidate scores at least as high as any legal offset |
| SeatingOptimality.AnchorsIgnoreOrder | app/services/seating.py:299-317 | the list of anchors is the same for every permutation of the runs |
| SeatingOptimality.FeasibleMeansAllocatable | app/services/seating.py:392-413 | a size is reported feasible exactly when it is within the limit and `allocate` places it |
| SeatingOptimality.SizesARunServes | app/services/seating.py:242-272 | a run of length L serves exactly {L} and [1, L-2] normally, [1, L] near the end of the sale |
| SeatingOptimality.RatchetOnlyAdds | app/services/seat_runs.py:587-595 | switching to the end-of-sale policy never withdraws a feasible size |
| SeatingOptimality.CalibrationStaysInRange | app/services/seating.py:121-155 | calibration gives the middle seat `base`, the outermost `edge`, every seat something in between, and a decay that is not negative |
| SeatingLists.Occupy | app/services/seating.py:320-345 | the loop refuses exactly when no run contains the placement, otherwise returns the sorted runs of the zone without those seats |
| SeatingLists.Release | app/services/seating.py:348-389 | the loop refuses exactly empty, out-of-block or overlapping intervals, otherwise returns the sorted runs of the zone with those seats |
| SeatingPotential.PlacementMakesNoOrphan | app/services/seating.py:242-272 | with `min_run >= 2` a placement leaves no new single seat |
| SeatingPotential.OrphansComeFromSingles | app/services/seating.py:242-272 | over any placements and releases, single-seat runs never exceed the initial ones plus the single seats released |
| SeatingPotential.CostsTelescope | app/services/seating.py:188-210 | cut costs plus seats sold along any placement sequence add up to the drop in summed potential |
| SeatRuns.ZoneStore.DeleteRun | app/services/seat_runs.py:400-401 | dropping both fields of a run drops that run and nothing else |
| SeatRuns.ZoneStore.WriteRun | app/services/seat_runs.py:402-409 | writing both fields adds that run and nothing else |
| SeatRuns.ZoneStore.CutRun | app/services/seat_runs.py:396-409 | the hash commands leave exactly the runs without the interval, `ends` still the inverse index |
| SeatRuns.ZoneStore.ClaimSeats | app/services/seat_runs.py:362-433 | the script's answer and its whole effect on runs, counters, quota, stream and claims, in its order of checks, also field by field; the indexes stay exact |
| SeatRuns.ZoneStore.AbsorbLeft | app/services/seat_runs.py:500-506 | one lookup in `ends` finds and removes the left neighbour |
| SeatRuns.ZoneStore.AbsorbRight | app/services/seat_runs.py:508-514 | one lookup in `runs` finds and removes the right neighbour |
| SeatRuns.ZoneStore.MergeInterval | app/services/seat_runs.py:500-517 | the merge leaves exactly the maximal runs with the interval added |
| SeatRuns.ZoneStore.FindOverlap | app/services/seat_runs.py:471-487 | the scan reports an overlapping run exactly when the interval is not entirely taken |
| SeatRuns.ZoneStore.ReleaseSeats | app/services/seat_runs.py:445-522 | the script's answer and its whole effect; DUP, OOB and OVERLAP change nothing and set no marker |
| SeatRuns.ZoneStore.RecordStrictMiss | app/services/seat_runs.py:134-147 | the third refusal in a row switches the zone, once and for good |
| SeatOthers.ThirdRefusalSwitches | app/services/seat_runs.py:134-147 | two refusals only count, the third switches the zone and starts the count over |
| SeatScripts.ClaimDoesWhatItSays | app/services/seat_runs.py:362-433 | each answer is given exactly under its condition, in the script's order; the new entry has the request's buyer, size, price, key and seats, other entries, other buyers' fields, geometry and markers are untouched, and exactly the claimed seats stop being free |
| SeatScripts.ReleaseDoesWhatItSays | app/services/seat_runs.py:445-522 | each answer is given exactly under its condition; a release frees exactly its seats, moves exactly one buyer's field or drops it, both counters and the marker, and nothing else |
| SeatScripts.SeatsCountSeats | app/services/seat_runs.py:411-414 | the counter is the number of free seats |
| SeatZone.CommandsKeepSound | app/services/seat_runs.py:362-522 | over any sequence of scripts runs stay maximal and inside their blocks |
| SeatZone.EventTotalNeverDrifts | app/worker.py:1759-1762 | over any sequence of scripts the event counter and the zone's free seats move together (rebuilds: `SeatedLedger.EventAgreesIff`) |
| SeatOrphans.OrphansAreExcused | app/services/seating.py:242-272 | over any scripts of placement loops and releases, new single free seats are bounded by returned single seats plus cuts made under the end-of-sale policy |
| SeatOrphans.ReservationMakesFewOrphans | app/services/seat_runs.py:538-670 | however the placement loop ends, it leaves no new single seat, or at most one under the end-of-sale policy |
| SeatOrphans.ReservationIsACut | app/services/seat_runs.py:603-665 | what the loop does to a zone is one claim that the policy permits, or nothing |
| SeatComplement.ComplementIsUnique | app/services/seat_runs.py:225-233 | there is only one canonical complement of a set of held intervals |
| SeatComplement.ClaimKeepsBalance | app/services/seat_runs.py:385-409 | a claim takes seats that nobody held, and the runs stay the complement of what is held |
| SeatComplement.HeldCanBeReleased | app/services/seat_runs.py:460-487 | a held interval passes the bounds and overlap checks |
| SeatComplement.ReleaseKeepsBalance | app/services/seat_runs.py:489-517 | returning a held interval succeeds and the runs stay the complement of what is held |
| SeatComplement.RunsAreAlwaysTheComplement | app/services/seat_runs.py:221-233 | after any sequence of claims and releases the runs are exactly what a rebuild from the live intervals would compute |
| SeatRebuild.FreeRunsOfBlock | app/services/seat_runs.py:226-233 | the cursor loop yields exactly the free seats of a block as maximal runs |
| SeatRebuild.FreeRunsOfZone | app/services/seat_runs.py:221-233 | the runs of all blocks together are the canonical complement of the holds |
| SeatRebuild.RebuildZoneRuns | app/services/seat_runs.py:176-264 | refuses only while the stream has entries; otherwise runs, index, geometry and counter are those of the complement of the holds, whatever other clients' scripts do between check, read and write |
| SeatRefinement.ClaimRefinesOccupy | app/services/seat_runs.py:385-409 | past the duplicate and quota checks the script succeeds exactly when its host run is free and `occupy` does not raise, and leaves the runs `occupy` returns |
| SeatRefinement.ReleaseRefinesRelease | app/services/seat_runs.py:445-522 | script and `release` agree, on the runs too, if and only if the block is known, the interval does not start before it, or it overlaps a free run |
| SeatRefinement.UnknownBlockIsNotChecked | app/services/seat_runs.py:463-469 | for an unknown block the script accepts an interval that `release` refuses |
| SeatRefinement.ReleaseUndoesClaim | app/services/seat_runs.py:396-521 | giving back what was just claimed restores runs and counters, and the quota field exactly unless it was a leftover with nothing positive in it |
| SeatReserve.FindHost | app/services/seat_runs.py:604-610 | a host run is always found for a picked anchor |
| SeatReserve.HostIsUnique | app/services/seat_runs.py:604-610 | only one run can host a placement, so the host found is the run it was cut from |
| SeatReserve.AnchorsIffFits | app/services/seat_runs.py:573-601 | the snapshot has an anchor exactly when some free run has a cut the policy permits |
| SeatReserve.CalibratedAsConfigured | app/services/seat_runs.py:284-295 | a block's seats are worth what the seat map says: `base` in the middle, `edge` at the ends |
| SeatReserve.SwapNeverOutOfBounds | app/services/seat_runs.py:645-649 | BOUNDS cannot be answered |
| SeatReserve.SwapTakesFreeSeats | app/services/seat_runs.py:346-353 | a successful swap takes only seats that are free at that moment |
| SeatReserve.Swap | app/services/seat_runs.py:603-665 | one attempt under any scripts of others: success is a cut the policy permits of a run that is free at the swap, a retry is due to others only, every other outcome changes nothing |
| SeatReserve.ReserveSeatsAndEnqueue | app/services/seat_runs.py:538-670 | at most `MAX_CAS_ATTEMPTS` attempts with others running wherever the code waits; a success is the legal cut the random draw stands for, with exactly as many better suggestions as drawn, and puts this very order on the stream; a refusal names exactly the sizes that fit the zone as read; the policy switches exactly at a full count of refusals; contention means that others ran a script inside every other attempt |
| SeatReserve.FewAreBetter | app/services/seat_runs.py:603 | fewer than `top_k` suggestions of the zone as read are better than the reserved seats |
| SeatReserve.TopOneIsAllocate | app/services/seat_runs.py:603 | with `top_k` one the reserved seats are those `allocate` chooses on the zone as read |
| Inventory.InventoryStore.ReserveAndEnqueue | app/services/inventory.py:148-201 | the reserve script's answer and its whole effect, in its order of checks |
| Inventory.ReserveDoesWhatItSays | app/services/inventory.py:148-201 | each answer is given exactly under its condition on key, stock and quota, in the script's order; an acceptance writes exactly its own fields |
| Inventory.ReleaseDoesWhatItSays | app/services/inventory.py:239-251 | a first release returns stock and quota and sets the marker, a repeat changes nothing |
| Inventory.InventoryStore.Release | app/services/inventory.py:239-251 | the release script's effect on stock, quota and marker |
| Inventory.ReleaseTwiceIsOnce | app/services/inventory.py:239-251 | a second release under the same marker changes nothing |
| UnseatedLedger.TakenByInsert | app/worker.py:950-980 | storing an order moves its seats from the entry to the order; nobody's total changes |
| UnseatedLedger.TakenByRefund | app/worker.py:1154-1161 | a dead-letter refund takes exactly the entry's seats off the buyer and the total |
| UnseatedLedger.TakenByRelease | app/services/orders.py:121-129 | a release takes exactly the order's seats off the buyer and the total |
| UnseatedLedger.OwedIsZero | app/services/inventory.py:294-331 | no seat is owed exactly when every finished order has its marker |
| UnseatedSteps.ReserveKeeps | app/services/inventory.py:148-201 | a reservation keeps every part of the invariant |
| UnseatedSteps.InsertKeeps | app/worker.py:950-996 | storing an order keeps the invariant, however many deliveries of its entry are under way |
| UnseatedSteps.RefundKeeps | app/worker.py:1102-1162 | the dead-letter refund keeps the invariant, also when replayed |
| UnseatedSteps.DecideKeeps | app/services/orders.py:51-77 | a status change with its outbox row keeps the invariant |
| UnseatedSteps.ReturnKeeps | app/services/orders.py:121-129 | a post-commit release keeps the invariant, also when replayed |
| UnseatedSafety.AlwaysSound | app/worker.py:1102-1234 | the invariant holds in every state of every run with crashes and redelivery |
| UnseatedSafety.NeverOversold | app/services/inventory.py:148-201 | available is never negative and always total minus all live claims; held orders never exceed the total, nor a buyer's the limit |
| UnseatedSafety.DriftChecksPass | app/worker.py:1524-1573 | with an empty stream and nothing owed, stock and every quota field equal what the database says |
| UnseatedSafety.ReconcileAtRestIsIdle | app/services/inventory.py:294-331 | reconciling at rest changes nothing |
| UnseatedSafety.ReturnedAtMostOnce | app/services/inventory.py:239-251 | over any run an order's seats come back at most once, exactly when its marker is set |
| UnseatedSafety.ReturnSetsMarker | app/services/orders.py:102-129 | seats come back only after a committed final status |
| UnseatedSafety.ClaimsAreBounded | app/worker.py:287-304 | a run claims an outbox row at most `OUTBOX_MAX_ATTEMPTS` times, exactly as often as its counter says |
| UnseatedSafety.ClaimsAreALeaseApart | app/worker.py:274-304 | two claims of one row are at least a whole lease, and so a minute, apart |
| UnseatedSafety.DeliveriesAreBounded | app/worker.py:1187-1224 | a run hands an entry to be stored at most `MAX_DELIVERIES` times |
| UnseatedSafety.OutboxTellsTheTruth | app/worker.py:333-383 | a processed row means the seats were returned; seats still owed have an unprocessed row |
| UnseatedHistory.OrdersComeFromRequests | app/worker.py:950-980 | over every run each stored order is an accepted request with its buyer, size, price and key, and each stream entry is one |
| UnseatedHistory.AcceptedIsNeverLost | app/worker.py:1102-1162 | over every run an accepted request waits in the stream, is stored with the data that was accepted, or was refunded, never the last two |
| UnseatedHistory.OneRequestPerKey | app/services/inventory.py:152-154 | no key is accepted twice |
| UnseatedHistory.AnswersAreJust | app/services/inventory.py:152-174 | in every reachable state a request is answered from the past requests and live claims alone: duplicate, sold out, over the limit or accepted, each if and only if |
| UnseatedClaims.FailedMeansSettled | app/worker.py:1102-1162 | over every run a claim marked FAILED is of a stored or refunded request, and a refunded request whose entry is gone is marked FAILED |
| Delivery.LeaseDoubles | app/worker.py:274-304 | the lease starts at a minute and doubles up to an hour |
| Delivery.LeasesInUse | app/worker.py:274-304 | the eight leases of a row in seconds |
| UnseatedReconcile.TakenOverRun | app/services/inventory.py:148-251 | over any run the seats taken move by what is reserved minus what is given back, for everybody and for each buyer |
| UnseatedReconcile.StockWriteIsRightIff | app/services/inventory.py:311-321 | the counter written is wrong by exactly the seats in flight or owed at the read plus those reserved minus those given back until the write, so it is right if and only if that is zero |
| UnseatedReconcile.QuotaWriteIsRightIff | app/services/inventory.py:329-331 | the quota hash written is wrong for a buyer by exactly that buyer's error, and right if and only if every error is zero |
| UnseatedReconcile.WithoutReturnsRightIff | app/services/inventory.py:301-331 | with nothing given back in between, right if and only if nothing is in flight, owed or reserved |
| UnseatedReconcile.ReconcileInCodeOrder | app/services/inventory.py:301-331 | check, read, write: right if and only if nothing is owed at the read and nothing is reserved until the write |
| UnseatedReconcile.FromRestRightIff | app/services/inventory.py:301-331 | read at rest, the error is what was reserved minus what was given back until the write |
| UnseatedReconcile.ReconcileConservesIff | app/services/inventory.py:301-310 | undisturbed, on an empty stream, a reconcile conserves seats if and only if no release is outstanding |
| UnseatedReconcile.OwedReleaseAfterReconcileOversells | app/services/inventory.py:301-331 | an owed release after such a reconcile offers more seats than exist, by exactly the order's size |
| UnseatedReconcile.OwedStateIsReachable | app/services/inventory.py:301-310 | one expired order reaches a state where the stream check lets such a reconcile through |
| UnseatedReconcile.LostReservationFromTheStart | app/services/inventory.py:311-321 | from a fresh event, a reservation between the read and the write is sold a second time |
| OrderWorker.Worker.PersistIntent | app/worker.py:922-996 | stores the order, recognises a duplicate or fails without effect, as a run of the pipeline |
| OrderWorker.Worker.DeadLetterIntent | app/worker.py:1102-1162 | refunds exactly when no order was stored, as a run of the pipeline |
| OrderWorker.Worker.Process | app/worker.py:1044-1062 | one delivery, as a run of the pipeline; with a working database the entry is settled |
| OrderWorker.Worker.Abandon | app/worker.py:1221-1224 | giving up settles the entry: stored before or refunded now |
| OrderWorker.Worker.ReclaimStale | app/worker.py:1176-1234 | whatever fails is a run of the pipeline; every listed entry out of deliveries or met by a working database is settled, others stay |
| OrderWorker.Worker.ClaimBatch | app/worker.py:340-352 | the whole batch is leased before any row is handled |
| OrderWorker.Worker.HandleRow | app/worker.py:354-383 | a handled row has its order's marker; a failed one is left to its lease |
| OrderWorker.Worker.ProcessOutbox | app/worker.py:333-383 | whatever fails is a run of the pipeline, and every row whose handler worked is processed with its seats returned |
| OrderWorker.Worker.ReconcileInventory | app/services/inventory.py:294-331 | refuses exactly on a backlog without force, otherwise sums up the orders and overwrites counter and quotas with the database's numbers |
| OrderWorker.Worker.CheckBacklog | app/services/inventory.py:301-310 | passes exactly when forced or the stream is empty |
| OrderWorker.Worker.SoldSeats | app/services/inventory.py:311-319 | the sum over the rows that hold seats |
| OrderWorker.Worker.SeatsPerBuyer | app/services/inventory.py:346-361 | the sums per buyer, without buyers who hold nothing |
| SeatOwners.ClaimAddsOwner | app/services/seat_runs.py:396-430 | a claim gives its seats one owner and touches nobody else's |
| SeatOwners.ReleaseRemovesOwner | app/services/seat_runs.py:489-517 | an owner can always give its seats back, and only its own go |
| SeatOwners.EachSeatOnce | app/models/seating.py:210-218 | an existing seat is free or owned, and owned once |
| SeatedSteps.InFlightTouchesNoHold | app/models/seating.py:205-218 | seats of an entry in flight overlap no hold row |
| SeatedSteps.InsertKeeps | app/worker.py:950-996 | storing order and hold together keeps every seat accounted for |
| SeatedSteps.RefundGoesThrough | app/worker.py:1144-1153 | the refund of an entry in flight meets no overlap |
| SeatedSteps.DropHoldKeeps | app/services/orders.py:131-135 | deleting the hold row moves its seats into limbo and nowhere else |
| SeatedSteps.ReturnGoesThrough | app/services/orders.py:136-144 | a pending return of seats in limbo meets no overlap |
| SeatedSteps.WriteKeeps | app/services/seat_runs.py:226-264 | writing the complement of the hold rows read earlier keeps every seat accounted for, as long as nothing is in flight and no return is pending for an order it frees |
| SeatedSafety.AlwaysSound | app/services/orders.py:102-144 | the seated invariant holds in every state of every run |
| SeatedSafety.SeatsArePartitioned | app/services/orders.py:102-144 | in every state of every run a seat is in exactly one of a free run, an entry in flight, a hold row, limbo |
| SeatedSafety.ExcludeNeverRejects | app/models/seating.py:205-218 | hold rows never overlap, and the constraint never rejects an order being stored |
| SeatedSafety.ReleasesNeverFail | app/services/seat_runs.py:718-725 | every release the system runs is a repeat or succeeds: never OVERLAP, never OOB |
| SeatedSafety.ReturnedAtMostOnce | app/services/orders.py:102-144 | over any run an order's seats return to the runs at most once |
| SeatedSafety.ReturnSetsMarker | app/services/orders.py:102-144 | they return only together with the marker and only after a final status |
| SeatedSafety.LeakLastsUntilRebuild | app/services/orders.py:112-118 | seats whose worker died between commit and script stay out of sale through every run without a rebuild |
| SeatedSafety.OutboxSteps | app/worker.py:284-304 | what each step does to the outbox: a row with a final status, a lease with a claim, the flag with the mark |
| SeatedHistory.OrdersComeFromRequests | app/worker.py:950-980 | over every run each stored order is an accepted request with its buyer, seats, price and key |
| SeatedHistory.AcceptedIsNeverLost | app/worker.py:1102-1162 | over every run an accepted request waits in the stream, is stored with the very seats and price, or was refunded, never the last two |
| SeatedHistory.OneRequestPerKey | app/services/seat_runs.py:372-374 | no key is accepted twice |
| SeatedHistory.AnswersAreJust | app/services/seat_runs.py:372-394 | in every reachable state a claim is answered from the past requests, live claims and free runs alone, each answer if and only if |
| SeatedPromises.SeatsComeAndGoOnce | app/services/orders.py:102-144 | over any run an order's seats come with its row and go back on sale at most once |
| SeatedPromises.HeldLimboOrBackOnce | app/services/orders.py:102-144 | in every reachable state a stored order's seats are held, in limbo, or were put back on sale exactly once |
| SeatedPromises.ProcessedMeansBackIff | app/worker.py:368-383 | over every run, rebuilds included, a processed row means the seats came back, once, if and only if the order is not in limbo |
| SeatedPromises.ProcessedMeansReturnedIff | app/worker.py:368-383 | over every run without a rebuild, the order of a processed row has its marker if and only if it is not in limbo |
| SeatedPromises.NoHoldMeansReturnableIff | app/services/orders.py:131-135 | an order without a hold row still gets its seats returned if and only if the marker is set or a worker has read the hold row and is about to return them |
| SeatedPromises.RelayKeepsPromiseIff | app/services/orders.py:131-135 | the same at the step in which the relay finds no hold row |
| SeatedPromises.ProcessedMeansDropped | app/worker.py:368-383 | a processed row of a seated order means its hold row is gone |
| SeatedPromises.ProcessedRowMayLeak | app/services/orders.py:131-135 | from any state about to release: the run in which a row is processed, the seats are not back and nobody will return them |
| SeatedPromises.LeakFromTheStart | app/services/orders.py:131-135 | that run from a fresh zone, claim to processed row, after which no run without a rebuild returns the seats |
| SeatedPromises.UnsafeRebuildFromTheStart | app/services/seat_runs.py:200-204 | from a fresh zone, a state whose stream is empty and in which a rebuild would make a release under way fail |
| SeatedPromises.LostClaimFromTheStart | app/services/seat_runs.py:213-261 | from a fresh zone, a claim between the read and the write whose seats the write offers again |
| SeatedRebuild.RebuildIsSafeIff | app/services/seat_runs.py:200-204 | undisturbed, on an empty stream, a rebuild leaves all releases under way working if and only if none is for an order in limbo |
| SeatedRebuild.LimboTurnsFree | app/services/seat_runs.py:221-233 | a rebuild puts all seats of orders whose hold row it did not see up for sale |
| SeatedRebuild.ReturnWorksIff | app/services/seat_runs.py:226-261 | after a write a pending return works if and only if it is a repeat or all its seats were held at the read |
| SeatedRebuild.SeatOverRun | app/services/seat_runs.py:346-522 | over any run a seat becomes taken by a claim of it and free by a release of it and in no other way |
| SeatedRebuild.RebuiltSeatIsRightIff | app/services/seat_runs.py:213-261 | seat by seat, the written runs are right if and only if being unseen at the read and claims until the write are made up for by give-backs |
| SeatedRebuild.RebuildIsRightIff | app/services/seat_runs.py:213-261 | the written runs are the live ones if and only if no seat's error differs from zero |
| SeatedRebuild.RebuildWithoutReturnsIff | app/services/seat_runs.py:213-261 | with nothing given back in between, right if and only if nothing is in flight or in limbo at the read and nothing is claimed until the write |
| SeatedRebuild.RebuildInCodeOrder | app/services/seat_runs.py:200-261 | check, read, write: right if and only if nothing is in limbo at the read and nothing is claimed until the write |
| SeatedRebuild.DriftCheckFindsExactlyTheLeaks | app/worker.py:1867-1882 | on an empty stream the complement check passes if and only if nothing is in limbo |
| SeatedLedger.QuotaIsLiveClaims | app/services/seat_runs.py:362-522 | in every state of every run, rebuilds included, a buyer's quota is the sum of that buyer's live claims, and the event counter the capacity less everybody's |
| SeatedLedger.NobodyOverTheLimit | app/services/seat_runs.py:376-383 | no run takes a buyer's quota over the limit its claims were made under |
| SeatedLedger.UnreleasedOrderKeepsQuota | app/services/orders.py:112-118 | an order whose release never ran keeps its buyer's quota, also after a rebuild has put its seats up for sale |
| SeatedLedger.LeftOutSeatsComeFree | app/services/seat_runs.py:221-235 | a complement that leaves out some orders has exactly their seats more |
| SeatedLedger.DriftIsFreedSeats | app/services/seat_runs.py:235-261 | event counter and zone drift apart by exactly the seats that rebuilds freed while their orders still counted |
| SeatedLedger.EventAgreesIff | app/services/seat_runs.py:235-261 | event counter and zone agree after any run, rebuilds included, if and only if no rebuild met an order in limbo |
| SeatReturn.BoxOffice.ReleaseOrderSeat | app/services/orders.py:102-144 | database first, script second, as a run of the pipeline against the hashes; undisturbed the seats are back and the marker is set |
| OrderRows.OrderStore.TransitionOrderStatus | app/crud/order.py:94-139 | illegal, applied or lost, and the row afterwards |
| Orders.TableIsTheMoves | app/crud/order.py:12-18 | the transition table is the four moves |
| Orders.HoldsWhileItMayConfirm | app/crud/order.py:12-18 | an order holds its seats exactly while it may still end confirmed, and owes them back exactly when it cannot |
| OrderRows.AttemptDoesWhatItSays | app/crud/order.py:94-139 | illegal, lost or applied, each exactly when; an applied attempt sets the status and its own timestamp only |
| OrderRows.EveryStatusIsReached | app/crud/order.py:12-18 | PAID, EXPIRED and CANCELLED by one attempt of whoever saw PENDING, CONFIRMED by two |
| OrderRows.PaidIsOnlyConfirmed | app/crud/order.py:12-18 | PAID is left only for CONFIRMED, and CONFIRMED is reached only through PAID |
| OrderRows.OrderStore.TransitionOwingRelease | app/services/orders.py:51-77 | the outbox entry goes in exactly with an applied transition |
| OrderRows.OrderStore.AllAttempted | app/crud/order.py:94-139 | any interleaving of writers with stale snapshots: all CHECKs hold, exactly one leaves PENDING if any does, one release is owed exactly for EXPIRED and CANCELLED |
| OrderRows.SaneAlways | app/models/order.py:103-136 | on a monotone clock every CHECK on status and timestamps holds in every committed state |
| OrderRows.FinalIsFinal | app/crud/order.py:12-18 | a final row never changes, whatever anybody has read |
| OrderRows.LeavesPendingOnce | app/crud/order.py:119-132 | at most one transition leaves PENDING |
| OrderRows.PendingUntilSomeoneTries | app/crud/order.py:119-132 | the order stays PENDING exactly while nobody who saw PENDING tries a legal move |
| OrderRows.ClockDecidesPaidBeforeConfirmed | app/models/order.py:133-136 | the smallest such run: paying and then confirming passes the check exactly when the clock has not gone back |
| OrderRows.ClockDecidesTheChecks | app/models/order.py:103-136 | over any interleaving and on any clock, the CHECKs hold if and only if the move to CONFIRMED was not stamped earlier than the move to PAID |
| OrderRows.StampIsTheMover | app/crud/order.py:119-132 | each timestamp is the clock of the one attempt that moved the row there, and is never written again |
| Payments.StepKeeps | app/api/v1/webhook.py:54-142 | every step of every writer, of the buyer and of Stripe keeps money and order in agreement |
| Payments.SweepEndsOnlyCanceledIntents | app/services/abandoned_payments.py:139-212 | an expired order has a canceled intent unless the timeout cron, which selects unlinked orders, ended it |
| Payments.ConfirmedMeansCharged | app/api/v1/webhook.py:145-188 | a confirmed order was charged exactly its total and is never refunded |
| Payments.EveryChargeIsSettled | app/api/v1/webhook.py:145-188 | a handled charge is either confirmed or refunded, never both or neither; the right amount is refunded only if cron or buyer had ended the order |
| Payments.DecisionIsFinal | app/crud/stripe_event.py:11-32 | a committed decision about a charge never changes, however often the event is delivered |
| Payments.OneReleaseOwed | app/services/orders.py:51-77 | seats are owed back exactly once for an ended order and never for a confirmed one |
| Payments.BuyerCancelsPendingOrders | app/services/orders.py:80-99 | in every reachable state with a pending order a cancelling buyer ends it CANCELLED, owing its seats exactly once |
| Payments.EndersEndPendingOrders | app/services/orders.py:51-77 | buyer, cron and sweep end the order exactly if it is still pending, each in its own way, and change nothing otherwise |
| Payments.CancelEventEndsPendingOrders | app/api/v1/webhook.py:221-238 | so does the canceled event |
| Payments.ChargeConfirmsPendingOrders | app/api/v1/webhook.py:145-188 | a charge confirms the order if and only if the amount is right and the order still pending, and is refunded otherwise |
| Payments.ChargesAreJust | app/api/v1/webhook.py:145-188 | the same in every reachable state |
| Payments.StripeCallsDoWhatTheySay | app/services/abandoned_payments.py:125-212 | what asking, voiding, creating, linking and refunding do, and nothing else |
| PaymentRuns.PageOpens | app/api/v1/orders.py:327-364 | from a fresh order to a live, linked intent |
| PaymentRuns.PaidOrderIsConfirmed | app/api/v1/webhook.py:145-188 | from there, a payment of the asked amount ends in a confirmed order |
| PaymentRuns.CancelledOrderIsVoided | app/api/v1/orders.py:228-324 | from there, a cancellation ends in a voided intent and one release owed |
| PaymentRuns.AbandonedOrderIsSwept | app/services/abandoned_payments.py:125-212 | from there, nobody pays: canceled at Stripe first, then expired, and the late event changes nothing more |
| PaymentTimeout.CronEndsLinkedIff | app/worker.py:170-199 | the cron's write ends an order with a linked payment if and only if the order is pending and the link was committed after the cron's SELECT |
| PaymentTimeout.CronSelected | app/worker.py:170-186 | whoever is about to time an order out has selected it unlinked |
| PaymentTimeout.ChargedOrderEndedByCron | app/worker.py:170-199 | a run in which a linked order is charged, ended by the cron and refunded |
| Checkout.Desk.HandlePaymentSucceeded | app/api/v1/webhook.py:145-188 | the decision table, with the row moved exactly when it confirms |
| Checkout.Desk.HandlePaymentAborted | app/api/v1/webhook.py:221-238 | expires and asks for a release exactly when the order was read and is still PENDING |
| Checkout.Desk.StripeWebhook | app/api/v1/webhook.py:54-142 | a duplicate does nothing; a first delivery is one run of the protocol and what follows the commit is what was decided |
| Checkout.Desk.SettleOne | app/services/abandoned_payments.py:125-212 | the order is touched only after Stripe said canceled, as a run of the protocol |
| WaitingRoom.Draw.RegisterAll | app/services/waiting_room.py:103-111 | after any registration phase the draw is a function of who registered |
| WaitingRoom.RanksDependOnlyOnWhoRegistered | app/services/waiting_room.py:1-14 | ranks do not depend on arrival order or on registering again |
| WaitingRoom.RankFollowsOrder | app/services/waiting_room.py:169 | ranks are distinct places below the total, in score order |
| WaitingRoom.RankFollowsScore | app/services/waiting_room.py:169 | the smaller score has the smaller rank; equal scores rank by member name |
| WaitingRoom.PlacesAreFilled | app/services/waiting_room.py:169 | ranks leave no gap |
| WaitingRoom.DeadlineIsExact | app/services/waiting_room.py:183-204 | a registered rank is below the admitted count exactly when the clock has reached the deadline |
| WaitingRoom.AdmittedAfterTheirTurn | app/services/waiting_room.py:183-204 | the same with the people ahead counted and the deadline written out |
| WaitingRoom.CountCountsPeople | app/services/waiting_room.py:145-156 | the admitted count is the number of people admitted: rate times seconds rounded down, or everybody |
| WaitingRoom.AdmissionIsThrottled | app/services/waiting_room.py:145-156 | in any stretch of d seconds at most ceil(rate * d) people become admitted, and nobody is sent back |
| WaitingRoom.Status | app/services/waiting_room.py:159-180 | admitted exactly when registered, on sale, not paused and past the deadline; otherwise how many are ahead |
| AdmissionToken.OneAcceptancePerToken | app/api/v1/orders.py:65-89 | over all concurrent requests, seated or not, refunds and retries a token yields at most one accepted order |
| AdmissionToken.UsedMeansAccepted | app/api/v1/orders.py:78-88 | with no request under way a token is used exactly if its order was accepted or its request was lost |
| AdmissionToken.RefusalLeavesNothing | app/api/v1/orders.py:78-88 | after a domain error of an order without seats the token is unused and stock, quota, stream and claims are as before |
| AdmissionToken.RejectionLeavesNothing | app/api/v1/orders.py:78-88 | so it is when the event's checks fail or the placement loop raises |
| AdmissionToken.Door.Create | app/api/v1/orders.py:65-89 | the token is consumed exactly when the order was taken on, which is exactly when the key is known or stock and quota suffice, and then the key is claimed; otherwise nothing changed |
| SeatedAdmission.SeatedDoor.Create | app/api/v1/orders.py:65-89 | with seats: the token is consumed exactly when the order was taken on; after any domain error it is unused and the zone is what other clients alone made of it |
| SeatedAdmission.SuccessClaimsTheKey | app/services/seat_runs.py:627-665 | an order that was taken on has its key claimed |
| SingleFlight.Flights.Run | app/core/singleflight.py:45-63 | joins the unfinished computation of the key if there is one, else starts and registers one |
| SingleFlight.Flights.Forget | app/core/singleflight.py:65-70 | a late callback never removes a newer computation |
| SingleFlight.AtMostOnePerKey | app/core/singleflight.py:45-70 | after any sequence of calls, completions and callbacks, however late, a key has at most one unfinished computation, the registered one |
| SingleFlight.RegisteredAwaitsItsCallback | app/core/singleflight.py:65-70 | after any such sequence whatever is registered is a computation of that key whose callback is still to run |
| EventCache.LoadsAreBounded | app/services/event_cache.py:172-217 | one database load per cold period, plus at most one per failure, lock expiry, exhausted wait or cache expiry |
| EventCache.OnlyTheHolderUnlocks | app/services/event_cache.py:64-69 | a held lock goes away only by its holder's unlock or by expiring |
| EventCache.UnlockFreesOwnLock | app/services/event_cache.py:64-69 | the holder's unlock frees the lock, a stranger's leaves it alone |
| EventCache.LockGoesToOne | app/services/event_cache.py:184-190 | a free lock goes to whoever asks, a held one to nobody else |
| EventCache.TwoMissesOneLoad | app/services/event_cache.py:172-217 | two processes that miss together read the database once, warm the cache and leave the lock free |
| EventCache.CriticalSectionIsExclusive | app/services/event_cache.py:184-196 | without lock expiry at most one process checks, loads or unlocks |
| RateLimit.Limiter.Hit | app/services/rate_limit.py:43-66 | counts the hit, and no counter is ever left without an expiry |
| RateLimit.Limiter.Enforce | app/services/rate_limit.py:89-102 | lets through exactly up to the limit; the answered wait ends at most half a second before the window, and reaches its end exactly if the remaining time was not rounded down |
| RateLimit.Limiter.EnforceAll | app/services/rate_limit.py:89-102 | for any trace, every stretch of one window length grants fewer than twice the limit |
| RateLimit.NeverTwiceTheLimit | app/services/rate_limit.py:14 | the bound behind it, from any reachable counter |
| RateLimit.BoundIsReached | app/services/rate_limit.py:14 | a burst across a window boundary reaches the bound exactly |
| VenueLabels.SkippingLabels | app/scripts/seed_venue.py:44-60 | for every rule that never stops letting numbers through: terminates for every row; sizes are exact and labels are the acceptable numbers in order |
| VenueLabels.SkippingLabelsAscend | app/scripts/seed_venue.py:44-60 | labels strictly increase along the row and are never ones the rule rejects |
| VenueLabels.NoFineNumberIsSkipped | app/scripts/seed_venue.py:44-60 | no acceptable number is left out |
| VenueLabels.DefaultLabelsAreLucky | app/scripts/seed_venue.py:26-32 | under the default rule no label has a four in it and none is 13 |
| VenueLabels.UnluckyNumbers | app/scripts/seed_venue.py:26-32 | 13 and the numbers with a digit four are rejected, and no others |
| VenueLabels.SuperstitionIsUnbounded | app/scripts/seed_venue.py:26-32 | the default rule never stops letting numbers through |
| VenueLabels.OnesAreFine | app/scripts/seed_venue.py:26-32 | a row of ones is acceptable, so above any number there is an acceptable one |
| VenueLabels.OddEvenIsInjective | app/scripts/seed_venue.py:69-74 | no two seats of a row share a label |
| VenueLabels.OddLeftEvenRight | app/scripts/seed_venue.py:63-80 | odd numbers left of the middle and even ones right of it, one and two at the middle, growing by two outwards |
| VenueLabels.OddEvenLabels | app/scripts/seed_venue.py:63-80 | the row's labels cut into the blocks without loss or repetition |

## Left out

- HTTP layer, authentication, logging, tracing, metrics, server-sent events and pokes: no effect on the modelled state.
- Redis, Postgres and Stripe themselves: only the atomic commands used, and an intent that may succeed or be canceled at any time.
- Expiry of claims, release markers, consumed tokens and strict-miss counters, and approximate trimming of streams: assumed not to happen within a run.
- Floating point: scores, qualities and times are reals; `round` is modelled as half-to-even.
- JSON, JWT and hash encodings: tokens, keys and scores are opaque values; the salted hash is a function of the user.
- Batched XREADGROUP: entries are read one at a time; listing and claiming a pending entry in the reclaim job is one step.
- The giving-up guard: dead-lettering assumes that no earlier delivery of the entry is still being persisted, as the idle threshold is meant to ensure.
- UnseatedPipeline.Next: the writes of a reconcile are steps only where they are right, so that the invariant speaks of the runs without a harmful one; what any other write does is stated in `UnseatedReconcile`.
- SeatedPipeline.Next: the same for the write of a rebuild, see `SeatedRebuild`; one zone per event, so quota and event counter are those of an event with a single zone.
- SeatReserve.ReserveSeatsAndEnqueue: the random draw among the best anchors and the scripts of other clients are parameters.
- SeatRebuild.RebuildZoneRuns: the blocks and holds read from the database are parameters that satisfy its constraints.
- OrderWorker.Worker.ReconcileInventory: the method runs its parts back to back; other clients in between are in `UnseatedReconcile`.
- SeatedPipeline.Next: the PENDING or FAILED state of a seated claim is not kept, only that it exists; for events without seats it is in `UnseatedClaims`.
- AdmissionToken.Next: a seated submission is one step there, accepted or not; its zone is in `SeatedAdmission`.
- Payments.Next: one intent per order and one succeeded and one canceled event per intent, as the idempotency keys provide; the refund call itself may fail and then stays undone.
- EventCache.Next: a load that finds no such event fills nothing and counts as a failed one.
- RateLimit.Limiter.EnforceAll: `clear`, used after a successful login, is not part of the traces.
- VenueLabels.SkippingLabels: a rule that rejects every number from some point on lets the loop run forever on a long enough row; such rules are excluded.
- Compaction of pending holds: only simulated in the repository, not part of the live system.
- Event cache freshness after administrative edits, audit log, refresh tokens, administration and the mock payment endpoint.
