# Verified model of the vtessera marketplace

This project models the marketplace's trade protocol and the independent algorithms around
it, and proves properties of them in Dafny 4.11. `dafny verify dfyconfig.toml` checks it all.

## The trade, settlement and reconcile protocol

`Domain`, `Tables` and `Protocol` define the stored tables, each store transaction, and a
step system at the fine grain: one store access is one step, any number of calls are in
flight, and each call's frame keeps its own possibly stale copies. A clock reading used as a
stamp is taken one step before the write it stamps. The chain, the transaction verifier, the
draft of a new trade, fresh identifiers, query row order and the clock are inputs of a step.

`Safety` gives every frame an assertion about the tables that no other call's step can
break; `Transactions` and `Interleaving` prove that a step under its frame's assertion keeps
the table invariants; `Runs` closes the induction over all interleavings and `FineGrain`
states what follows for every reachable state. `Overlap` proves exactly when a lost race leaves
a finished trade with a live request, and `Races` reaches such a state in each possible order.

`MethodGrain`, `EventLog` and `Sequential` treat runs in which calls do not overlap (ticks may
still fall anywhere): the claims that `applyAs` answering a lost race with the current trade
breaks at the fine grain hold there. `Services` is the imperative service itself, on the
imperative `Store`; each public method is proved to be exactly the protocol's steps for its
command run alone (`RunningAlone`), and to keep every invariant.

`Calls` follows a call made alone forward from its first step, and `Outcomes`, `Verdicts` and
`SweepCalls` say what each of the service's calls comes to, in tables and answer only, with
nothing said in terms of the guards the calls are written with. `Completion` proves that every
such call ends and that a payment can go all the way; `Deadlines` what binds the parties over
every interleaving.

`Spending` and `Exposure` are the cap check and the committed-spend query; `Caps`, `CapRuns` and
`Reserving` prove the caps over runs, `Disputes` what the one unchecked call does to them, and
`Releases` what ending a trade gives back. `SweepProgress` proves that the accepted sweep makes
progress under concurrency.

## The independent cores

- `Ordering`, `Attest`, `Decoding`, `Presentation`, `Probing`, `Quickstart`: the canonical signed
  encoding, its decoder, what it forgets, and its second implementation; `Vectors`: examples
  of it written out. A text stands for its bytes; in `Quickstart` a character is a Unicode
  scalar value and UTF-8 is spelled out.
- `MintFlight`: the single-flight cache. `RateLimit`: the token bucket with eviction.
- `Money`, `Pricing`: decimal amounts, 128-bit pricing, the pricing cache, rounding loss.
- `LedgerChain`: the hashed preimage. `Routing`: the capability table. `Base58`: the codec.

Hashes, the settlement verifier and library text handling are parameters; a property that
needs a collision-free digest says so in its precondition.

## Where the code and its comments part

The model follows the code.

- A dispute of an accepted trade moves its charge to now and makes no cap check. It leaves
  the buyer within the daily cap exactly when the trade's value fits beside everything else
  the buyer holds (`Disputes.DisputeFitsIff`), and there is a run in which it does not
  (`Disputes.DisputeCanExceed`).
- `Record` does not look at the settlement mode, so a recorded trade may be an on-chain one.
- `ExpireAccepted` asks for trades accepted before now, not before now less the term. A trade
  is therefore sure of its turn only once a full term has passed since its last update.
- `scaleToUSD` always divides by 10^6, so a price is in micro-dollars for every amount only
  when the mint has six decimals (`Pricing.MicroUsdIffSixDecimals`).
- The skill sort key is not injective (`Presentation.KeysCollide`); permuting skills is harmless
  exactly when equal keys mean equal skills (`Presentation.SkillOrderForgottenIffKeysDecide`).
- `lessCost` is not transitive on every table that mixes parsed and unparsed costs. It orders a
  table exactly when rounding has merged no unparsed cost between two parsed ones, on paths
  that close a cycle (`Routing.TableOrdersIff`); otherwise the route can be a dearer one than
  a compliant route of the same table (`Routing.RouteMissesCheapest`).
- The limiter's key bound bounds nothing (`RateLimit.KeysAreUnbounded`). It holds over a run
  exactly when every request finds its key known, room, or something to evict
  (`RateLimit.BoundHoldsExactly`). Eviction also breaks the bound on allowed requests, unless a
  burst refills within the idle time (`RateLimit.BoundIffRefills`).
- A caller that joins a flight after the chain has answered, and before that is published, is
  answered from a read that was over when it asked (`MintFlight.LateJoiner`); every other
  answered caller's read overlapped its call (`MintFlight.AnswersAreCurrent`).
- A trade that has finished can hold a live request, and a build can hand one out. Over every
  run this is so exactly when the insert of a request not since retired and the move that
  finished the trade were made by two calls one of which was caught between its last look and
  its write (`Overlap.HeldExactly`): the trade finished under a build that had read it
  (`Races.RecordThenInsert`), or the request was inserted when the finishing call had already
  looked (`Races.InsertThenCancel`), or the trade finished before the build that inserted the
  request moved it (`Races.InsertThenRecord`). When no build of a trade is in flight together
  with a call finishing it, it never happens (`Overlap.NoOverlapNoLiveRequest`).

## Model

| member | source | states |
|---|---|---|
| Domain.ReachesIsPaths | internal/trade/trade.go:533-572 | A state reaches another exactly when a path of legal moves leads there; no state is revisited; recorded, settled, cancelled and resolved are exactly the states nothing leaves |
| Tables.Store.CreateTrade | internal/store/trades.go:15-24 | The primary key and the idempotency index refuse a duplicate, otherwise the row is stored and nothing else changes |
| Tables.Store.SetTradeState | internal/store/trades.go:197-214 | Compare-and-set: state and update time change only if the stored state is the expected one |
| Tables.Store.AddTradeAcceptance | internal/store/trades.go:72-89 | One acceptance a trade and agent; the first stamp stays |
| Tables.Store.AppendTradeEvent | internal/store/trades.go:216-231 | The event joins the end of the log |
| Tables.Store.ExpireSettlementRequests | internal/store/settlement.go:132-147 | Every issued request of the trade becomes expired, every other row stays |
| Tables.Store.CreateSettlementRequest | internal/store/settlement.go:18-41 | Supersede and insert in one transaction |
| Tables.Store.SetSettlementSignature | internal/store/settlement.go:85-108 | Signs only an issued request that carries no other signature |
| Tables.Store.ConfirmSettlementRequest | internal/store/settlement.go:110-130 | Confirms only an issued request |
| Tables.Store.AppendLedgerEntry | internal/store/ledger.go:11-43 | Stale when the head moved, duplicate when the trade has an entry, otherwise the next numbered, linked, hashed entry |
| Tables.Store.SaveReceipt | internal/store/ledger.go:97-104 | One receipt a trade |
| Interleaving.BegunOk | internal/trade/trade.go:752-763 | Whatever a call reads first, the frame it goes on with has an assertion no other call can break |
| Interleaving.AcceptCountStep | internal/trade/trade.go:764-779 | A trade is accepted only on two acceptances, from its two parties, stamped no later than the move |
| Interleaving.ConfirmingStep | internal/trade/reconcile.go:359-383 | Confirming leaves the request as evidence of this signature on the running cluster |
| Interleaving.FetchStep | internal/trade/reconcile.go:277-306 | A trade goes on to settle only on a transaction shown for the signature asked for, executed without error, that verifies against its own terms |
| Interleaving.AppendStep | internal/ledger/ledger.go:177-198 | Each stale attempt accounts for another entry that landed |
| Runs.FrameStep | internal/trade/trade.go:882-902 | A step of any call, from any stale copy, keeps the table invariants and its own next assertion |
| Runs.FramesStable | internal/store/store.go:337-349 | No step of one call breaks another call's assertion |
| Runs.Invariant | internal/store/store.go:337-349 | Every state of every interleaving satisfies the invariant |
| Runs.TablesGrow | internal/store/trades.go:197-214 | Over any run trades keep their terms and move only forward, and acceptances, events, ledger entries and receipts are final |
| FineGrain.MovesAlongEdges | internal/trade/trade.go:882-902 | One step moves a stored trade along one legal edge or not at all; trades first appear as proposed |
| FineGrain.FinalIsForever | internal/trade/trade.go:533-564 | A recorded, settled, cancelled or resolved row never changes again |
| FineGrain.OneEnding | internal/trade/trade.go:533-564 | No trade is ever final in two ways: none both settles and cancels |
| FineGrain.EngagedByBoth | internal/trade/trade.go:752-779 | Every accepted, pending, recorded, settled, disputed or resolved trade holds acceptances from both of its two distinct parties |
| FineGrain.KeysAreUnique | internal/trade/trade.go:587-595 | An idempotency key names at most one trade |
| FineGrain.ReceiptsAreBacked | internal/ledger/ledger.go:120-175 | A receipt is for a recorded or settled trade and names the entry holding its row; a signed one names a confirmed request of a settled trade |
| FineGrain.SettledIsProven | internal/trade/reconcile.go:277-317 | A settled trade is on-chain, and for the signature of one of its confirmed requests the chain showed a transaction that executed without error and verifies against its own terms |
| FineGrain.RequestsAreSingle | internal/store/settlement.go:18-41 | At most one issued request a trade, only for on-chain trades that were accepted |
| FineGrain.PendingHasRequest | internal/trade/settlement.go:242-311 | A pending trade is on-chain and always has a request |
| FineGrain.RequestLife | internal/store/settlement.go:85-147 | Issued to confirmed or issued to expired, then nothing; a signature once carried is carried forever |
| FineGrain.ChainIsSound | internal/store/ledger.go:11-43 | Under any interleaving of appenders: numbers 1..n, each linked, each hash recomputable, one entry a delivered trade |
| FineGrain.AppendBeginsAt | internal/ledger/ledger.go:177-183 | The chain length a call starts appending from |
| FineGrain.StaleMeansThreeLanded | internal/ledger/ledger.go:177-198 | Stale is answered exactly at the third attempt, and then at least three other entries landed during the call |
| FineGrain.ResultsAreStored | internal/trade/trade.go:882-902 | Whatever a call hands out is, or once was, what the store holds |
| FineGrain.ReservingIsExclusive | internal/trade/trade.go:638-644 | With limits configured at most one call is between its cap check and its insert |
| Overlap.IssuedIffInserted | internal/store/settlement.go:18-41 | Over every run a trade has an issued request exactly when some build inserted it and no later step retired the trade's requests |
| Overlap.LastLook | internal/trade/trade.go:682-686 | When a call goes on to finish a pending trade, no request of it is live at that moment |
| Overlap.BecomesHeld | internal/trade/settlement.go:278-311 | One step leaves a finished trade with a live request for the first time exactly when it inserts on a finished row, or finishes a row holding one |
| Overlap.OrderOfWrites | internal/trade/settlement.go:242-311 | If the trade finished first, the build was underway then; if the request came first, the finishing call had already looked, or the build had yet to move the trade |
| Overlap.HeldExactly | internal/trade/settlement.go:256-311 | Over every run: a finished trade holds a live request exactly when a build and a finishing call clashed in one of those orders and nothing has retired the request since |
| Overlap.NoOverlapNoLiveRequest | internal/trade/trade.go:674-713 | Over every run: no live request on a finished trade unless a build and a finishing call of it were in flight at one moment |
| Races.RecordThenInsert | internal/trade/settlement.go:242-311 | Reachable: a record commits the trade between a build's read and its insert |
| Races.InsertThenRecord | internal/trade/trade.go:781-808 | Reachable: a record commits the trade between a build's insert and its move to pending |
| Races.InsertThenCancel | internal/trade/trade.go:674-713 | Reachable: a cancel lands on a pending trade for which a build has issued a request since the cancel looked |
| MethodGrain.StepAlone | internal/trade/trade.go:882-902 | With nothing else running, a step keeps: no request on an open, accepted or recorded trade, none issued on a settled one, none live on a cancelled one |
| EventLog.RowsTouched | internal/trade/trade.go:882-902 | Only an insert and a compare-and-set write trades, and only the step after writes an event |
| EventLog.LogStep | internal/trade/trade.go:915-926 | With nothing else running, the log with the one event still owed replays to the stored states, legally and in time order |
| EventLog.TrailIsPath | internal/trade/trade.go:533-572 | A log that replays spells a path of legal moves from proposed |
| Sequential.SeqInvariant | internal/trade/trade.go:882-902 | Every state of every run without overlapping calls satisfies the method-grain invariant |
| Sequential.FinishedHoldNoLiveRequest | internal/trade/trade.go:674-713 | Between calls recorded, settled and cancelled trades hold no issued, unexpired request |
| Sequential.ReceiptSignedIffSettled | internal/ledger/ledger.go:120-175 | Between calls a receipt carries a settlement signature exactly when its trade settled |
| Sequential.LogTellsHistory | internal/trade/trade.go:915-926 | Between calls each trade's events lead along legal moves from proposed to its stored state, in time order |
| RunningAlone.ExecIsRun | internal/trade/trade.go:116-146 | One call's steps run alone are steps of the whole system |
| RunningAlone.CalledKeeps | internal/trade/trade.go:116-146 | A call made alone keeps the invariants and hands out what is stored |
| Calls.CalledIsLeads | internal/trade/trade.go:116-146 | Calls followed forward from their first step, told what the outside says, are the calls made alone |
| Outcomes.CreateDecides | internal/trade/trade.go:575-668 | A used key answers with its trade; otherwise the offer's trade is stored as of now and proposed by the caller, if there is one, its identifier is new and the cap admits it; else nothing changes |
| Outcomes.BeginDecides | internal/trade/trade.go:670-672 | Only a party, only from proposed; repeating changes nothing; everyone else is refused with nothing changed |
| Outcomes.AcceptDecides | internal/trade/trade.go:752-779 | A party's acceptance is stored once, and concludes the negotiation exactly when the other party's is there |
| Outcomes.CancelDecides | internal/trade/trade.go:674-713 | A party cancels with nothing signable out: an open or pending trade at once, an accepted one exactly from the earliest acceptance plus the configured term; all else is refused with nothing changed |
| Outcomes.DisputeDecides | internal/trade/trade.go:715-724 | A party disputes an accepted or pending trade; all else changes nothing |
| Outcomes.ResolveDecides | internal/trade/trade.go:735-750 | A disputed trade is resolved in nobody's name; all else changes nothing |
| Outcomes.RecordDecides | internal/trade/trade.go:781-818 | A party of an accepted trade the cap admits records it: one ledger entry and one unsigned receipt that names it; a recorded one answers with its receipt; all else changes nothing |
| Verdicts.BuildDecides | internal/trade/settlement.go:242-311 | The buyer of an on-chain accepted or pending trade the cap admits is handed one fresh request, every earlier one withdrawn, the trade pending; all else changes nothing |
| Verdicts.BuiltIsOnlyIssued | internal/store/settlement.go:18-41 | What a build leaves issued is the request it handed out |
| Verdicts.ConfirmDecides | internal/trade/settlement.go:318-371 | Which request a confirmation is for, when it is refused, and what the first word of the chain about the signature makes of the trade |
| Verdicts.ConfirmedPaymentDecides | internal/trade/reconcile.go:277-317 | Landed and verified: settled, the request confirmed under the signature, nothing left issued, a receipt carrying it handed out; landed and not verified: disputed, no receipt; failed: still pending, nothing left issued |
| Verdicts.ReconcileDecides | internal/trade/reconcile.go:155-228 | Which request a pass polls, and that it settles, disputes, withdraws, cancels or leaves the trade by what the chain says of it and whether it has lapsed |
| Verdicts.ReconciledPaymentDecides | internal/trade/reconcile.go:277-317 | The same verdict on a trade whose signed request the reconciler finds landed |
| Completion.EveryCallEnds | internal/trade/settlement.go:375-392 | A call on one trade made alone ends, whatever it is told from outside |
| Completion.SettledIsReachable | internal/trade/settlement.go:318-371 | A run of calls that do not overlap takes a trade from its proposal to a settlement and its signed receipt |
| SweepCalls.ExpireAcceptedDecides | internal/trade/trade.go:303-334 | Of the trades agreed by now the least recently updated, up to the limit, are looked at, and exactly those whose earliest acceptance is a term old are cancelled |
| SweepCalls.AcceptedSweepIsExact | internal/trade/trade.go:303-334 | Within its term no trade is touched, and a sweep short of its limit leaves none beyond it |
| SweepCalls.ExpireOpenDecides | internal/trade/trade.go:368-399 | Of the open trades untouched for the open term the least recently updated, up to the limit, are all cancelled |
| SweepCalls.ExpiryRows | internal/trade/trade.go:303-334 | A pass cancels each due trade of its batch and changes nothing else about any trade |
| Deadlines.AcceptanceBinds | internal/trade/trade.go:690-709 | Over every interleaving: a step takes a trade from accepted to cancelled only where a term is configured and an acceptance stored for it is at least that old |
| Deadlines.OpenTradesLast | internal/trade/trade.go:368-399 | Over every interleaving: an open trade is cancelled by a party, or after lying untouched for the open term |
| Deadlines.OnlyPartiesAct | internal/trade/trade.go:904-913 | Over every interleaving: whoever an event names is the buyer or the seller of its trade |
| Services.Service.ApplyAs | internal/trade/trade.go:882-902 | Refused when the copy does not allow the move; otherwise compare-and-set, event, and the row read back, whoever wrote it |
| Services.Service.Create | internal/trade/trade.go:575-668 | Exactly the protocol's create on the draft it is given: key lookup, draft, lock, cap check, insert, event |
| Services.Service.BeginNegotiation | internal/trade/trade.go:670-672 | Exactly the protocol's begin |
| Services.Service.Accept | internal/trade/trade.go:752-779 | Exactly the protocol's accept |
| Services.Service.Cancel | internal/trade/trade.go:674-713 | Exactly the protocol's cancel, with its live-request and deadline refusals |
| Services.Service.Dispute | internal/trade/trade.go:715-724 | Exactly the protocol's dispute |
| Services.Service.Resolve | internal/trade/trade.go:735-750 | Exactly the protocol's resolve |
| Services.Service.Record | internal/trade/trade.go:781-818 | Exactly the protocol's record: the receipt of a trade already recorded; otherwise cap check without the trade itself, commit, receipt |
| Services.Service.BuildSettlement | internal/trade/settlement.go:242-311 | Exactly the protocol's build, told whether its terms can be built |
| Services.Service.ConfirmSettlement | internal/trade/settlement.go:318-371 | Exactly the protocol's confirm on the chain's answers attempt by attempt, a delivered trade answered with its receipt |
| Services.Service.Await | internal/trade/settlement.go:375-392 | Polls a bounded number of times, retrying only on "not found" |
| Services.Service.SettleFetched | internal/trade/reconcile.go:277-317 | The one verdict both paths share |
| Services.Service.ConfirmRequests | internal/trade/reconcile.go:359-383 | Confirm first, then expire what it superseded |
| Services.Service.ReconcileTrade | internal/trade/reconcile.go:155-228 | Exactly the protocol's reconcile of one trade on the chain's one answer |
| Services.Service.CurrentRequest | internal/store/settlement.go:46-54 | The issued request, or else the newest |
| Services.Service.LatestRequest | internal/trade/reconcile.go:254-271 | The newest request with a signature, or the newest of all when none has one |
| Services.Service.LiveSettlement | internal/trade/settlement.go:422-437 | Whether some request of the trade is issued and unexpired |
| Services.Service.LedgerRecord | internal/ledger/ledger.go:120-198 | Refuses undelivered and receipted trades; appends in a bounded retry loop; saves the receipt |
| Services.Service.OldestRows | internal/store/trades.go:118-156 | A sweep's query: matching rows, least recently updated first, at most the bound, all of them if they fit |
| Services.Service.ExpireAccepted | internal/trade/trade.go:303-334 | Exactly the protocol's accepted sweep |
| Services.Service.ExpireOpen | internal/trade/trade.go:368-399 | Exactly the protocol's open sweep |
| Services.Service.Checked | internal/trade/trade.go:416-488 | Query and loop together decide the admission test on the tables |
| Spending.EffectiveIsLarger | internal/limits/limits.go:290-306 | For every agent each effective cap is numerically its own default or the stored raise of it, whichever is larger, raised exactly when above; with no raise both are the defaults |
| Spending.AdmissionIsNumeric | internal/trade/trade.go:416-475 | Admission in terms of the default caps and the stored raise: both convert, everything is priced, the value within the larger per-trade figure and the total within the larger daily one |
| Spending.DayCapIsNumeric | internal/limits/limits.go:290-306 | The daily cap exposure is held to is that larger daily figure |
| Spending.CheckSpend | internal/trade/trade.go:416-475 | On wrapping 64-bit sums: admits exactly when every amount is priceable and, in unbounded integers, the value is within the per-trade cap and the total within the daily cap |
| Exposure.FirstCommitIsLeast | internal/store/limits.go:111-122 | The commitment time is the least event time into a committed state |
| Exposure.HeldIsCharged | internal/store/limits.go:58-122 | The query counts exactly the buyer's trades that are neither cancelled nor resolved and whose creation or first commitment into pending, recorded, settled or disputed, whichever is later, is in the window |
| Exposure.ChargedInFull | internal/store/limits.go:58-122 | Such a trade counts in full, any other for nothing |
| Releases.MoveReleases | internal/store/limits.go:58-67 | Cancelling or resolving a trade frees exactly its charge |
| Releases.EndedReleases | internal/trade/trade.go:674-750 | After a resolve, a cancel or a lapsed settlement made alone ends a trade its buyer's exposure is its charge less |
| Releases.ExpiryReleases | internal/trade/trade.go:303-334 | A sweep frees exactly what the trades it cancels were charged for |
| Exposure.CommittedSpendSince | internal/store/limits.go:111-151 | The rows of exactly the buyer's unreleased trades engaged since the cutoff, one excluded |
| Exposure.RowsSumToExposure | internal/store/limits.go:58-110 | Query rows sum to the exposure, whatever their order |
| Exposure.CheckDecidesAdmission | internal/trade/trade.go:416-475 | The check over rows decides admission whatever the row order |
| Caps.ExposureMoves | internal/store/limits.go:58-67 | A state change never adds exposure |
| Caps.ExposureLogs | internal/store/limits.go:69-91 | Only a trade's first commitment can move its charge into the window |
| Caps.CoveredIsWithin | internal/trade/trade.go:781-804 | Excluding the trade being committed counts it once, not twice |
| CapRuns.CheckedCallsEndWithinCap | internal/trade/trade.go:400-486 | Right after a create, record or build succeeds its buyer's in-window exposure is within the daily cap |
| CapRuns.OnlyCommitmentsRaise | internal/store/limits.go:58-91 | No step raises a buyer's exposure but the insert of a created trade and the logging of an accepted trade's move to pending, recorded or disputed |
| CapRuns.OnlyDisputesExceed | internal/trade/trade.go:715-724 | No other step than disputing a still-accepted trade takes exposure above where it was and above the cap |
| CapRuns.CapHoldsThroughout | internal/trade/trade.go:400-415 | Without such a dispute a buyer is within the daily cap at every moment of a run |
| RunningAlone.BetweenCalled | internal/trade/trade.go:116-146 | A call made alone after a run of calls that do not overlap ends such a run itself |
| Disputes.DisputeFitsIff | internal/trade/trade.go:715-724 | After the dispute of an accepted trade returns, its buyer is engaged for everything else and the trade in full, so within the daily cap exactly when its value fitted beside the rest before the call |
| Disputes.DisputeCanExceed | internal/trade/trade.go:715-724 | A run of checked calls whose last, a dispute, takes a buyer within the cap past it |
| Reserving.CreatesStayWithinCap | internal/trade/trade.go:138-145 | However creates, agreements, releases and ticks interleave, every buyer stays within the cap |
| SweepProgress.OrderedBeforeIsExpired | internal/trade/trade.go:265-288 | Once a full term has passed since a trade's update, every accepted trade ordered before it is expired |
| SweepProgress.AheadDrains | internal/store/trades.go:118-131 | Past that time nothing new can be ordered ahead, whatever agents do |
| SweepProgress.PassShrinks | internal/trade/trade.go:303-334 | A full pass expires the trade or takes a whole batch from ahead of it |
| SweepProgress.LeavesWithinItsRank | internal/trade/trade.go:290-334 | The trade leaves "accepted" within as many passes as its rank takes, a batch at a time |
| LedgerChain.PreimageIsInjective | internal/ledger/signer.go:280-283 | On hex hashes the preimage determines sequence number and both hashes |
| LedgerChain.HashedText | internal/ledger/signer.go:280-288 | What is hashed, in order: domain, sequence number in decimal, previous hash, payload hash; the first previous hash is sixty-four zeros |
| LedgerChain.EqualHeadsEqualChains | internal/ledger/signer.go:280-288 | Under a collision-free digest two valid chains with equal heads agree link by link |
| LedgerChain.SameHeadSameLedger | internal/store/ledger.go:11-43 | Two reachable stores whose ledgers end in one hash hold the same ledger |
| Ordering.SortedUniqueOf | internal/attest/attest.go:534-545 | The sorted set of the values |
| Ordering.SortedUniqueIsSet | internal/attest/attest.go:534-545 | It has exactly the members, strictly ascending |
| Ordering.BeforeIsLexicographic | internal/attest/attest.go:534-545 | The order is the usual one of texts |
| Attest.Encoder.Write | internal/attest/attest.go:425-432 | Appends one length-prefixed field |
| Attest.Encoder.WriteList | internal/attest/attest.go:441-449 | Appends a count and its numbered fields |
| Attest.Encoder.WriteSkills | internal/attest/attest.go:480-506 | Appends the skills, normalised and sorted by key |
| Attest.Encoder.WriteResults | internal/attest/attest.go:457-472 | Appends the results, sorted by capability |
| Attest.CardBytes | internal/attest/attest.go:366-379 | Writes exactly the canonical form of the card |
| Attest.OfferBytes | internal/attest/attest.go:382-395 | Writes exactly the canonical form of the offer |
| Attest.ProbeBytes | internal/attest/attest.go:264-271 | Writes exactly the canonical form of the report |
| Vectors.PlainCardText | internal/attest/attest_test.go:354-379 | The first card the tests write out encodes to those lines |
| Vectors.SkilledCardText | internal/attest/attest_test.go:469-500 | The second, with a skill, encodes to those lines |
| Vectors.FullCardText | internal/attest/attest.go:366-379 | A card whose every field has its own value, line by line |
| Vectors.TranslateText | internal/attest/attest.go:499-505 | A skill whose every field has its own value, line by line |
| Vectors.OfferText | internal/attest/attest.go:382-395 | An offer line by line, its capabilities out of order and one repeated |
| Vectors.ProbeText | internal/attest/attest.go:264-271 | A report line by line |
| Decoding.FieldReads | internal/attest/attest.go:397-407 | A field reads back whole, whatever its value contains |
| Decoding.DecodeReads | internal/attest/attest.go:397-432 | Decoding a layout gives the statement back |
| Decoding.EncodingIsUnique | internal/attest/attest.go:397-407 | Equal bytes exactly for statements of equal kind, timestamp text, scalars, sorted sets and ordered skills or results |
| Presentation.SetsAreForgotten | internal/attest/attest.go:366-379 | Reordering or repeating set members leaves the bytes unchanged |
| Presentation.CardsSignedAlike | internal/attest/attest.go:366-379 | Equal bytes exactly for equal single fields, equal sets, and skills that agree in order |
| Presentation.NormalSkillMeans | internal/attest/attest.go:508-545 | A normal skill is the skill with each of its own sets strictly ascending |
| Presentation.KeysFollowIds | internal/attest/attest.go:517-530 | Skills are ordered by identifier where these hold no NUL |
| Presentation.SkillOrderForgottenIffKeysDecide | internal/attest/attest.go:480-530 | Every permutation of a card's skills gives the same bytes exactly when equal sort keys imply equal normalised skills |
| Presentation.DistinctIdsDecide | internal/attest/attest.go:517-530 | Distinct identifiers without NUL are enough for that |
| Presentation.KeysCollide | internal/attest/attest.go:527-528 | Two different skills with one sort key, written in the order given |
| Presentation.SameListingIsSameTerms | internal/registry/registry.go:568-570 | With a collision-free digest two offers are the same listing exactly when their normalised terms are equal |
| Probing.Normalise | internal/probe/probe.go:276-306 | One record a claimed capability: the first report of it, unknown when silent or unrecognised, detail cut |
| Probing.TruncateMeans | internal/probe/probe.go:454-459 | A detail keeps at most its first two hundred bytes, with an ellipsis when cut |
| Probing.Passed | internal/probe/probe.go:70-80 | Non-empty and every status a pass |
| Probing.PassesIffEveryClaimPasses | internal/probe/probe.go:70-80 | A probe passes exactly when something is claimed and the first word on each claim was a pass |
| Probing.ResultOrderIsForgotten | internal/attest/attest.go:451-472 | Permuting the results of a normalised report leaves the bytes unchanged |
| Quickstart.Utf8KeepsOrder | quickstart/python/agent.py:145-155 | Code-point order and UTF-8 byte order agree |
| Quickstart.Utf8Reads | quickstart/python/agent.py:135-142 | The UTF-8 of a character reads back as its code point, by the table of RFC 3629 section 3 |
| Quickstart.FieldBytes | quickstart/python/agent.py:135-142 | The field of the value's UTF-8 bytes |
| Quickstart.Listing | quickstart/python/agent.py:145-155 | The counted list of the values' bytes, sorted and deduplicated |
| Quickstart.SkillsAgree | quickstart/python/agent.py:165-176 | Both implementations order skills alike, element by element |
| Quickstart.CardTextBytes | quickstart/python/agent.py:158-197 | For every card of Unicode texts, exactly the bytes the first implementation writes for its UTF-8 |
| MintFlight.MintVerifier.Enter | internal/settlement/mints.go:165-190 | Fresh cache, else join the flight, else lead |
| MintFlight.MintVerifier.Publish | internal/settlement/mints.go:201-220 | Ends the flight; caches and counts only a reading |
| MintFlight.EnterDecides | internal/settlement/mints.go:165-190 | Within its lifetime a cached reading answers on the spot and begins no flight; a flight is begun only where there is neither |
| MintFlight.CachedForLifetime | internal/settlement/mints.go:165-203 | A published reading answers every caller that enters within its lifetime, until another reading of the mint is published, with no chain read |
| MintFlight.OneReadPerMint | internal/settlement/mints.go:165-190 | At most one chain read per mint is outstanding |
| MintFlight.NoOrphanFlight | internal/settlement/mints.go:186-220 | Every registered flight still has its leader reading |
| MintFlight.AnswersAreCurrent | internal/settlement/mints.go:165-229 | An answer comes from a cached reading younger than the lifetime or from a flight that overlapped the call, whose chain read overlapped the call exactly when the caller arrived before it came back |
| MintFlight.LateJoiner | internal/settlement/mints.go:173-213 | Reachable: a caller answered from a read that was over when it asked |
| MintFlight.OneAnswerPerFlight | internal/settlement/mints.go:191-229 | Everyone answered from a flight gets the leader's reading, even if the leader's context is cancelled |
| MintFlight.FailuresAreNotCached | internal/settlement/mints.go:199-220 | Only successful readings are cached, each under its mint |
| MintFlight.DriftsCountReadings | internal/settlement/mints.go:203-211 | The drift counter is the number of drifted readings published |
| RateLimit.Limiter.Allow | internal/httpapi/ratelimit.go:69-94 | Refill, draw, refuse with a wait; evicts only when a new key meets a full map |
| RateLimit.Limiter.EvictIdle | internal/httpapi/ratelimit.go:96-102 | Drops exactly the buckets idle too long |
| RateLimit.AllowedAtMost | internal/httpapi/ratelimit.go:69-94 | Requests allowed for one key in any interval number at most burst plus rate times length, without eviction always and with it when a burst refills within the idle time |
| RateLimit.BoundIffRefills | internal/httpapi/ratelimit.go:69-102 | For a whole burst, the evicting limiter keeps that bound on every run, key and interval exactly when a burst refills within the idle time |
| RateLimit.EvictionIsInvisible | internal/httpapi/ratelimit.go:42-47 | When a burst refills within the idle time every answer is that of a limiter that never evicts |
| RateLimit.ForgettingIsExact | internal/httpapi/ratelimit.go:96-102 | Evicting an idle bucket forgets nothing exactly when a burst refills within the idle time |
| RateLimit.WaitingIsEnough | internal/httpapi/ratelimit.go:66-94 | After waiting the returned delay the next request of the key is allowed, whatever others do |
| RateLimit.WaitIsTight | internal/httpapi/ratelimit.go:66-94 | The key's next request is allowed exactly from one second short of the wait named; with no refill never, and the wait is an hour |
| RateLimit.GrantedExactly | internal/httpapi/ratelimit.go:69-94 | A request is allowed exactly when since every earlier request the key was allowed at least one fewer than a burst and what has accrued |
| RateLimit.OthersAreKept | internal/httpapi/ratelimit.go:73-102 | A request drops other buckets only when its key is new and the map full, and then exactly those idle too long |
| RateLimit.KeysAreUnbounded | internal/httpapi/ratelimit.go:42-47 | Any number of fresh keys at one time are all kept |
| RateLimit.BoundKeptExactly | internal/httpapi/ratelimit.go:73-79 | One request keeps the map within its bound exactly when its key is known, the map is not full, or some bucket is stale; otherwise it goes one over |
| RateLimit.BoundHoldsExactly | internal/httpapi/ratelimit.go:42-47 | Over a run the bound holds throughout exactly when that is so of every request |
| Money.ScanDigits | internal/money/money.go:68-75 | Whether every character is a digit |
| Money.AlignText | internal/money/money.go:102-113 | The aligned digit text of the specification |
| Money.ParseAcceptsCanonical | internal/money/money.go:29-58 | Parse accepts exactly the canonical decimals |
| Money.ParseIsGrammar | internal/money/money.go:29-58 | One to nineteen digits, the first of several not a zero, and optionally a point and one to nine more; each kept as it stands |
| Money.CmpIsNumeric | internal/money/money.go:85-100 | Cmp is the sign of the difference of the decimal values |
| Money.BaseUnitsExact | internal/money/money.go:115-133 | Exact, and fails precisely on bad scale, too many fraction digits, or overflow |
| Money.CmpAgreesWithBaseUnits | internal/money/money.go:85-133 | Comparison agrees with base units at any common scale |
| Money.RenderRoundTrip | internal/money/money.go:146-163 | Rendering then reading any 64-bit count at scale 1 to 9 gives it back, and Parse accepts the text |
| Money.ConvertThenRenderKeepsValue | internal/money/money.go:115-163 | Converting then rendering keeps the value |
| Money.RenderFailsOnlyOnScale | internal/money/money.go:146-163 | Rendering fails exactly on a bad scale |
| Money.IsZeroIsNumeric | internal/money/money.go:81-83 | Zero exactly when every digit is |
| Pricing.ScaleIsCappedQuotient | internal/limits/limits.go:397-417 | min(floor(units * rate / 1000000), 18446744073709551615) |
| Pricing.ScaleIsMonotone | internal/limits/limits.go:397-417 | Monotone in both arguments |
| Pricing.PriceCache.UsdValue | internal/limits/limits.go:361-395 | Equals the uncached price after any earlier calls |
| Pricing.PricedExactly | internal/limits/limits.go:338-395 | Priced exactly when the mint has a rate, the amount is a 64-bit count of base units, and the rate a positive 64-bit count of micro-dollars |
| Pricing.PriceIsValueAtMintScale | internal/limits/limits.go:333-355 | What a price is in terms of the true value, at the mint's own scale |
| Pricing.MicroUsdIffSixDecimals | internal/limits/limits.go:405-417 | Prices are micro-dollars for every amount exactly when the mint has six decimals |
| Pricing.RoundingLossIsBounded | internal/limits/limits.go:333-337 | n counted trades understate the true total by less than n micro-dollars, and never overstate it |
| Pricing.ParLosesNothing | internal/limits/limits.go:74-88 | At par nothing is lost |
| Routing.BuildTable | internal/agp/agp.go:160-187 | Fails exactly on too many or invalid announcements; otherwise each capability's entries, sorted |
| Routing.AnnouncementTaken | internal/agp/announcement.go:41-61 | Taken exactly when the capability is well formed, version and path are not blank, and a stated amount is a decimal with a mint |
| Routing.EntriesAreAnnouncements | internal/agp/announcement.go:63-97 | A capability's entries are its announcements in their order, each with its own path, policy, offer and cost |
| Routing.CheckPolicy | internal/agp/agp.go:261-273 | Every constraint is announced and matched |
| Routing.MatchMeets | internal/agp/agp.go:275-330 | What each key asks: a wanted flag an announced true, a security level at least the wanted one, a mode or currency in common whatever its case, any other key the same print |
| Routing.RouteMeetsIntent | internal/agp/agp.go:203-242 | The route given announces and meets every constraint key by key and is the first to; refused exactly when no entry does |
| Routing.LevelsAreMonotone | internal/agp/agp.go:285-301 | Announcing a higher security level or asking for a lower one never loses a route |
| Routing.WantedFlagMeans | internal/agp/agp.go:275-289 | A wanted flag is met by an announced true alone, an unwanted one by either |
| Routing.CapabilityGrammar | internal/agp/agp.go:83-105 | A capability is two or more parts between colons, none empty, in at most two hundred bytes |
| Routing.Route | internal/agp/agp.go:203-242 | Each refusal in its case; otherwise the first compliant entry, with refused entries tallied by offer |
| Routing.RejectedCounts | internal/agp/agp.go:213-222 | The tally of an offer is the number of its entries that do not comply |
| Routing.LessCostIsCheaper | internal/agp/agp.go:244-255 | On parsed costs the comparison is by exact cost, then path |
| Routing.OrdersIffNothingMerged | internal/agp/agp.go:244-255 | Where rounding never inverts two amounts, the comparison orders announced entries exactly when it has merged no unparsed cost between two parsed ones on cyclic paths |
| Routing.TableOrdersIff | internal/agp/agp.go:160-187 | The same of the entries a capability's announcements make |
| Routing.PlainTablesOrder | internal/agp/agp.go:244-255 | Tables of parsed costs only, and of unparsed costs only, are ordered |
| Routing.NoOrderHelps | internal/agp/agp.go:189-194 | However a table with such a triple is sorted, the comparison puts another entry before its first |
| Routing.RouteMissesCheapest | internal/agp/agp.go:203-233 | Three valid announcements whose route is dearer than another compliant one |
| Routing.RouteIsLeast | internal/agp/agp.go:203-233 | On a table the comparison orders, parsed or not, the unique least compliant entry, refused exactly when none complies |
| Routing.RouteIsCheapest | internal/agp/agp.go:203-233 | On exact costs and distinct paths, that entry is the least by exact cost, then path |
| Routing.RouteForgetsAnnouncementOrder | internal/agp/agp.go:160-187 | The choice does not depend on announcement order |
| Routing.ConstraintsNeverCheapen | internal/agp/agp.go:261-273 | Adding constraints never yields a route the comparison puts earlier, nor on exact costs a cheaper one |
| Base58.B58Encode | cmd/vtessera-seller/buyer.py:45-55 | The loop writes the base-58 digits and the leading ones of the specification |
| Base58.B58Decode | cmd/vtessera-seller/buyer.py:58-63 | The loop reads them back; a character outside the alphabet is an error |
| Base58.AlphabetIsPublished | cmd/vtessera-seller/buyer.py:42-42 | The alphabet, character by character |
| Base58.EncodeDenotes | cmd/vtessera-seller/buyer.py:45-55 | The text is the same number in base 58, with a one for each leading zero byte |
| Base58.PublishedVector | cmd/vtessera-seller/buyer.py:45-55 | The third test vector of draft-msporny-base58 |
| Base58.DecodeInvertsEncode | cmd/vtessera-seller/buyer.py:45-63 | Every byte string comes back, leading zeros included |
| Base58.EncodeInvertsDecode | cmd/vtessera-seller/buyer.py:45-63 | Every text over the alphabet comes back |

## Left out

- Crash recovery and store failures: a store access always succeeds, so nothing is said about a process that dies between confirming a request and settling its trade.
- The reconciler's outer pass over pending trades and its counters: each trade's reconcile is a call of its own.
- Offer rows: closing an offer after a trade is delivered, listing, expiry and retirement of agents.
- Event detail, error text, log lines, metrics, HTTP, JSON, configuration and the MCP server.
- Ed25519, SHA-256, JWS and uuid internals; Solana message building, account derivation and RPC; their results are parameters.
- Caps, rates and stored raises are fixed over a run; an agent changing its opt-in part-way is not modelled.
- The TypeScript card encoding, which sorts UTF-16 units.
- Services.Service.ConfirmSettlement: the clock stands still during a call made alone, because waiting between polls has no effect on the tables; the fine grain lets it tick between any two steps.
- Services.Service.Create: offer, agent and currency checks are one input, the draft, since they read tables the model does not have.
- Services.Service.Record: the offer row it closes afterwards is not modelled.
- RateLimit.Limiter.Allow: tokens and times are exact reals, not floating point, and waits are not cut to nanoseconds.
- Routing.Route: costs are exact decimals or reals; rounding a decimal to floating point is a parameter, and the table fingerprint and date are not computed.
- Quickstart.CardTextBytes: a skill's lists come under one name each, without the aliases the script also accepts.
