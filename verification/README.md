# Tooti: billing, routing and streaming of the inference network

Tooti is a network of inference nodes behind OpenAI-compatible gateways. An official gateway bills chat requests
to prepaid balances kept in a PostgreSQL data plane, picks nodes from what it hears by gossip, fails over between
them, and relays their streamed answers. This project models that behaviour in Dafny and proves what it is for:
no money is created or lost in any interleaving of store transactions, a request is settled at most once and, when
its settlement reaches the store, costs nothing if it failed, routing is deterministic, and every stream ends once.

| file | part of the system |
|---|---|
| `Ledger.dfy` | the tables of the data plane and the atomic effect of every store call |
| `PostgresStore.dfy` | the store as a class, statement by statement, each method equal to its atomic effect |
| `Conservation.dfy` | conservation, ledger prefix sums, request trails and reservation states over every run |
| `Transactions.dfy`, `Serializability.dfy` | the same calls as interleaved transactions with row locks and key conflicts |
| `Retries.dfy` | repeated calls |
| `Pricing.dfy`, `WirePricing.dfy` | 64-bit prices, holds, and the same price on both sides of the wire |
| `Billing.dfy`, `Sessions.dfy`, `Chat.dfy` | many requests billed at once; the same over interleaved transactions; one request from its hold to its settlement |
| `ApiKeys.dfy` | keys over two tables, top-up and rotation |
| `Order.dfy`, `Registry.dfy`, `Ranking.dfy` | gossip records, listings, the ranking and the ping order |
| `StreamRelay.dfy` | the node's chunk loop, the gateway's failover and decode loop, and the two composed |
| `PeerLifecycle.dfy` | connection counts and debounced reports |
| `PaymentDebt.dfy` | provider-side debts |
| `Eip712.dfy` | the fixed-width words of a transfer authorization |

Money is an integer number of micro-USDC, the unit of the `NUMERIC(20,6)` columns. Every lemma switches Dafny's
automatic induction off, so a proof shows the inductions it uses.

Seven properties one might expect are false of the code. Each has a concrete input and its exact condition:

* A failed request is not always free, and a hold is not always settled. The deferred settlement is made on the
  request's own context (pkg/gateway/openai_proxy.go:379, 518) and an error is only logged (1292-1302); the usage row
  is written on a context of its own (1190). Go's HTTP/1 server ends the request's context when a write to the client
  fails, so after a disconnect the hold stays reserved for good (`Chat.OneLostRequest`). A failed request is free
  exactly when it had no session or its settlement got through (`Chat.FreeExactlyWhenSettled`), and a hold stays
  exactly as long as no settlement gets through (`Billing.HoldStaysUntilCompleted`).
* The price is not always the ceiling of tokens times rate, and not always monotone in the tokens: product and sum
  wrap in 64 bits, also at the gateway's own default rates (`Pricing.PriceCanFallOutOfRange`,
  `Pricing.PriceCanCollapse`). Without floor and cap it is the ceiling exactly while it is in range, and it is
  monotone up to a length exactly while that length is in range or floor and cap leave one price for everything shorter
  (`Pricing.PriceIsCeiling`, `Pricing.PriceMonotoneExactly`).
* A hold does not always cover an answer of the allowed length from a node. A settlement's completion is documented
  as "output tokens only" (pkg/gateway/openai_proxy.go:1279-1280), but a node sends prompt plus completion counts
  (pkg/node/inference.go:218) and the gateway adds its own estimate of the prompt, so the prompt is priced twice
  (`Chat.PromptIsBilledTwice`). `Chat.NodeAnswerIsCovered` says exactly which answers are covered.
* Peer reports do not always alternate: a peer that is back just when its disconnect timer is due is reported
  connected twice (`PeerLifecycle.ReportsCanRepeat`, `PeerLifecycle.ReportsAlternateExactly`).
* Overlapping sessions of one payer can lose a provider debt: both start from the same prior debt and the last
  settlement wins (`PaymentDebt.OverlapLosesDebt`, `PaymentDebt.SerialExactly`).
* A top-up does not always hand out a key that lasts: when two first top-ups of one wallet overlap, both find no key,
  both issue one, and the first is dead (`ApiKeys.OverlappingTopupsLoseAKey`). A key is lost exactly when one was
  issued between the handler's lookup and its own upsert (`ApiKeys.InterruptedTopup`).
* An upsert does not always link the two key tables: `ApiKeys.ReusedHashIsDead`, `ApiKeys.UpsertLinksExactly`. This
  is an input of the store method; the handlers only pass hashes of freshly generated keys.

Two assumptions are stated where they are used: request ids are fresh (`Billing.FreshIds`; the gateway takes them
from a nanosecond clock) and so are key hashes (`ApiKeys.FreshHashes`).

## Model

| member | source | states |
|---|---|---|
| Ledger.RefusedChangesNothing | pkg/dataplane/postgres_store.go:385-403 | a failed or denied call leaves every table as it was, the provisional zero balance row included |
| Ledger.HoldRefusals | pkg/dataplane/postgres_store.go:346-418 | a hold fails or is denied for want of an amount, an account, cover, or a free id, each exactly then and in that order |
| Ledger.OtherRefusals | pkg/dataplane/postgres_store.go:429-582 | a settlement is refused exactly without its reservation or its balance row, a credit without an account, a top-up without its fields; a used fingerprint is not inserted again |
| Ledger.SettlementsCutThePrice | pkg/dataplane/postgres_store.go:463-505 | a success is charged its price, at most the hold, a failure or a price that is not positive nothing, the state says which, and the rest of the hold comes back |
| Ledger.MovementsAreNamed | pkg/dataplane/postgres_store.go:404-427 | a hold and a credit each append one ledger entry with their sign, their name and the balance after it |
| Ledger.SettlementsAreNamed | pkg/dataplane/postgres_store.go:481-498 | a settlement appends a release of the whole hold and then a debit of the charge unless that is zero, under the request's names |
| Ledger.TopupsMakePrepaid | pkg/dataplane/postgres_store.go:560-606 | a recorded top-up makes its consumer prepaid and keeps its key and wallet and every other consumer; a new fingerprint is filed with payer and amount and credited once |
| Store.PostgresStore.constructor | db/migrations/0004_phase2_prepaid_balance_state.sql:5-20 | a new data plane has only empty tables |
| Store.PostgresStore.EnsureBalanceRow | pkg/dataplane/postgres_store.go:385-391 | adds a zero row only where there is none, and fails exactly when the foreign key does |
| Store.PostgresStore.ReservePrepaidBalance | pkg/dataplane/postgres_store.go:346-427 | the statements, early commits and rollbacks together have the atomic effect and reply of a Reserve |
| Store.PostgresStore.FinalizePrepaidCharge | pkg/dataplane/postgres_store.go:429-510 | likewise for Finalize: replay of terminal rows, clamped charge |
| Store.PostgresStore.WriteSettlement | pkg/dataplane/postgres_store.go:474-505 | the balance is written once while the ledger shows a release and, unless the charge is zero, a debit |
| Store.PostgresStore.CreditConsumerBalance | pkg/dataplane/postgres_store.go:512-547 | likewise for Credit |
| Store.PostgresStore.RecordX402PrepaidTopup | pkg/dataplane/postgres_store.go:549-624 | likewise for Topup, on trimmed arguments |
| Store.PostgresStore.FirstTopup | pkg/dataplane/postgres_store.go:592-624 | a new fingerprint credits its amount once and is recorded |
| Store.PostgresStore.UpsertConsumerAPIKey | pkg/dataplane/postgres_store.go:241-271 | the two upserts have the atomic effect, and the unique index refuses another consumer's hash |
| Store.PostgresStore.RevokeConsumerAPIKey | pkg/dataplane/postgres_store.go:273-302 | revokes an active key of the consumer and clears the column only if it points there |
| Store.PostgresStore.LookupActiveAPIKey | pkg/dataplane/postgres_store.go:304-322 | a hash resolves only if both tables agree on it, to what the consumer's row says (with the lemma OwnersAreConsumers on kind and wallet) |
| Store.PostgresStore.LookupConsumerAPIKeyHash | pkg/dataplane/postgres_store.go:324-344 | the trimmed hash of the trimmed consumer, empty where there is none |
| Conservation.KeepsSound | pkg/dataplane/postgres_store.go:346-624 | every store call keeps foreign keys, conservation, ledger sums and request trails |
| Conservation.RunSound | pkg/dataplane/postgres_store.go:399-418 | in every reachable state and for every consumer, credits = balance + open holds + charges, each balance_after is the prefix sum up to it, and each request's ledger entries are exactly reserve, reserve-release or reserve-release-debit as its status says |
| Conservation.EmptySound | db/migrations/0004_phase2_prepaid_balance_state.sql:5-20 | the empty data plane is such a state |
| Conservation.KeepsNeverNegative | pkg/dataplane/postgres_store.go:397-403 | no call makes a balance or a balance_after negative, given positive credits |
| Conservation.RunNeverNegative | pkg/gateway/control_api.go:483 | nor does any run |
| Conservation.DeniedExactlyWhenOverdrawn | pkg/dataplane/postgres_store.go:392-427 | a new hold is denied exactly when it exceeds the sum of the consumer's ledger, and else takes its amount from it |
| Conservation.StepProgresses | pkg/dataplane/postgres_store.go:454-505 | a call never changes a reservation's owner or amount, and leaves settled ones alone |
| Conservation.TerminalStatesAbsorb | pkg/dataplane/postgres_store.go:454-462 | hence over any run finalized and released rows never change |
| Conservation.RepliesReportBalance | pkg/dataplane/postgres_store.go:346-624 | a balance in a reply is the consumer's balance after the call |
| Transactions.CommitIsAtomic | pkg/dataplane/postgres_store.go:346-624 | at its commit, what a transaction has buffered is what its call run alone at that moment would do and reply |
| Transactions.ReliesStable | pkg/dataplane/postgres_store.go:645-659 | what a transaction has read under its row locks stays true while those rows do |
| Transactions.CommitUndisturbs | pkg/dataplane/postgres_store.go:404-427 | a commit changes no row that another transaction has locked |
| Transactions.PendingInsertBlocks | pkg/dataplane/postgres_store.go:413-418 | a second insert of an uncommitted request id waits for the first |
| Transactions.NextKeeps | pkg/dataplane/postgres_store.go:346-624 | every statement, start and cancellation keeps the lock discipline |
| Serializability.ReachableInv | pkg/dataplane/postgres_store.go:346-624 | the lock discipline holds in every reachable state |
| Serializability.Serializable | pkg/dataplane/postgres_store.go:346-624 | for every interleaving, tables and replies are those of the committed calls one at a time in commit order |
| Serializability.InterleavingsSound | pkg/dataplane/postgres_store.go:346-624 | conservation, ledger sums and trails hold at every instant of every interleaving |
| Serializability.InterleavingsNeverNegative | pkg/gateway/control_api.go:483 | and no balance is negative, given positive deposits |
| Serializability.RacingReservesDeductOnce | pkg/dataplane/postgres_store.go:356-418 | however many Reserves of one request id race, its ledger has one reserve entry if it was reserved and none otherwise |
| Serializability.CommitsComeFromStarts | pkg/dataplane/postgres_store.go:346-624 | each started call commits at most once and nothing else commits |
| Serializability.RollbacksAreJustified | pkg/dataplane/postgres_store.go:385-418 | a transaction ends without committing only if its call alone would be refused, or it lost a race to a Reserve of the same request |
| Serializability.NoWaitCycle | pkg/dataplane/postgres_store.go:357-449 | no reachable state has a cycle of waiting transactions |
| Serializability.Runnable | pkg/dataplane/postgres_store.go:357-449 | from any waiting transaction one reaches a transaction that can go on |
| Serializability.CanDrain | pkg/dataplane/postgres_store.go:346-624 | from every reachable state some schedule ends all running transactions |
| Retries.RetriesAreHarmless | pkg/dataplane/postgres_store.go:356-381 | a run with repeats of approved Reserves, Finalizes or used fingerprints, at any amounts, leaves the same balances, ledger, reservations, top-ups and keys as the run without them |
| Retries.RetryIsAnswered | pkg/dataplane/postgres_store.go:454-462 | the row that makes a repeat a replay is still there, however much later |
| Retries.ReplayChangesNothing | pkg/dataplane/postgres_store.go:582-591 | a replay changes nothing but the consumer kind |
| Retries.RetriedReserveReportsFirstHold | pkg/dataplane/postgres_store.go:364-381 | a repeated Reserve is told the first amount and the current balance |
| Pricing.EstimateInputTokens | pkg/gateway/x402_paywall.go:279-292 | the loop computes the estimate that the next two lemmas characterize |
| Pricing.MessageCosts | pkg/gateway/x402_paywall.go:287-289 | a message costs a token for every four bytes begun of its content and of its role, and four more |
| Pricing.EstimatesAdd | pkg/gateway/x402_paywall.go:279-292 | the estimate of a conversation is the sum of the estimates of its parts |
| Pricing.ResolvedRates | pkg/gateway/x402_paywall.go:253-277 | each of a model's four figures counts where it is positive, and the general one where it is not or the model has none |
| Pricing.PrepaidTariffWins | pkg/gateway/openai_proxy.go:1351-1359 | the prepaid tariff is used whatever the chat tariff is, that one in its place, and without both chat is free |
| Pricing.FreeAndNegative | pkg/gateway/openai_proxy.go:1313-1325 | nothing is charged at a rate that is not positive, and a negative completion counts as none |
| Pricing.DefaultOutput | pkg/gateway/openai_proxy.go:1336-1349 | the larger of the default, 256 where there is none, and max_tokens |
| Pricing.PerThousandIsCeiling | pkg/gateway/openai_proxy.go:1326 | line 1326's expression is the ceiling of its own operands' product over 1000 exactly when the sum fits 64 bits, and then at least 1 |
| Pricing.PriceMonotone | pkg/gateway/openai_proxy.go:1313-1334 | in range, more completion tokens never cost less, also with a cap below the floor |
| Pricing.PriceMonotoneExactly | pkg/gateway/openai_proxy.go:1313-1334 | the price is monotone in the completion up to some length exactly when that length is in range, or floor and cap leave a single price, or everything shorter costs the floor; for every tariff |
| Pricing.PriceCanFallOutOfRange | pkg/gateway/openai_proxy.go:1326 | out of range ten tokens can cost the floor, less than one token, and a negative amount where there is no floor |
| Pricing.PriceCanCollapse | cmd/tooti/main.go:351-355 | the sum of tokens can wrap too: at the gateway's default rates the largest completion count costs the floor, less than 256 tokens do |
| Pricing.PriceRange | pkg/gateway/openai_proxy.go:1326-1333 | in range the price is at least 1, at most the cap, at least the floor, and the cap where it is below the floor |
| Pricing.FlooredPriceIsPositive | pkg/gateway/openai_proxy.go:1327-1329 | with a floor the price is at least 1 for every token count |
| Pricing.PriceIsCeiling | pkg/gateway/openai_proxy.go:1326 | without floor and cap, for all 64-bit token counts, the price is the ceiling of all tokens times rate over 1000 exactly when the computation is in range |
| Pricing.PriceIsClampedCeiling | pkg/gateway/openai_proxy.go:1326-1333 | in range the price is that ceiling between floor and cap, the floor below it, and the cap above it or below the floor |
| Pricing.HoldCoversExpectedAnswer | pkg/gateway/openai_proxy.go:1305-1349 | an answer within the default output tokens never costs more than its hold, the longest costs all of it unless it is free, and a free model holds 0.001 USDC |
| Pricing.HoldCoversExactly | pkg/gateway/openai_proxy.go:1305-1349 | in range, any answer's price is covered exactly when a cap stops it at the hold or its tokens come to no more than the hold at the rate |
| Billing.BeginPrepaidReservation | pkg/gateway/openai_proxy.go:1253-1277 | opens a session exactly when the principal is prepaid and the hold is approved |
| Billing.OnlyPrepaidAreHeld | pkg/gateway/openai_proxy.go:1253-1277 | an x402 or unknown principal goes on without a session and untouched; a prepaid one goes on, with a session and down by the hold, exactly when its ledger covers the hold |
| Billing.FinalizePrepaidReservation | pkg/gateway/openai_proxy.go:1279-1303 | settles a session at its price, zero on failure, cut to the hold; does nothing without a session, or when the call does not reach the store |
| Billing.SettlementsAskAtMostTheHold | pkg/gateway/openai_proxy.go:1281-1292 | a settlement asks for the price of a success, never for more than the hold, and for nothing on a failure |
| Billing.SettlementCharges | pkg/dataplane/postgres_store.go:463-505 | the settlement of an open session succeeds and charges min(price, hold), or nothing on failure |
| Billing.ServeConsistent | pkg/gateway/openai_proxy.go:341-381 | for every order of arrivals, completions and deposits, open holds are exactly the open sessions, each bill has one closed row, and spending grows by what is billed |
| Billing.EveryHoldIsOpenOrBilled | pkg/gateway/openai_proxy.go:359-381 | no hold is forgotten |
| Billing.BalancesAfterRun | pkg/gateway/openai_proxy.go:502-520 | at every point of every run each balance has moved by the accepted deposits, minus the sum of min(price, hold) over settled successes, minus the holds still open; no hold remains exactly when no session is open |
| Billing.CreditsAreDeposits | pkg/dataplane/postgres_store.go:512-624 | over every run the ledger's credits grow by exactly the accepted deposits |
| Billing.HoldStaysUntilCompleted | pkg/gateway/openai_proxy.go:1292-1302 | through every further run an open session's row stays reserved exactly as long as no settlement of it reaches the store |
| Sessions.InterleavedBilling | pkg/gateway/openai_proxy.go:1253-1303 | every interleaving of hold, settlement and deposit transactions, with rollbacks and repeated settlements, leaves the tables and open sessions of an atomic billing run in commit order |
| Sessions.HoldsAreOpenSessions | pkg/dataplane/postgres_store.go:346-510 | hence at every instant of every interleaving the rows on hold are exactly those of the open sessions, and each balance is what deposits, bills and open holds leave |
| Sessions.CommitKeepsStanding | pkg/dataplane/postgres_store.go:454-462 | a commit leaves every other running settlement either its open session or a settled row |
| Billing.SuccessIsCharged | pkg/dataplane/postgres_store.go:474-505 | a success at a positive price is finalized with at least 1 micro-USDC: its price where the hold covers it, and else the hold; a failure is released |
| Billing.PositiveRateIsCharged | pkg/gateway/openai_proxy.go:1313-1334 | a positive rate makes every success a finalized row charged at least 1: always where there is a floor, and in range otherwise |
| Billing.CostCoversCharge | pkg/gateway/openai_proxy.go:1216-1219 | for every bill of every run the recorded cost is at least what its row was charged exactly unless a success was priced negative, and equal exactly when it failed or its price is between zero and the hold |
| Billing.ExpectedAnswerCostsItsCharge | pkg/gateway/openai_proxy.go:1216-1219 | an answer within the default output tokens is charged and recorded at its full price |
| Chat.HandleChatStream | pkg/gateway/openai_proxy.go:341-357 | a streamed request reserves once and is decided by the first node not passed over, or left to the local backend; it is a success with the node's tokens exactly when all its events before [DONE] reached the client; its settlement takes effect only if it reaches the store, and a fresh failed request is free exactly when it did or there was no session |
| Chat.HandleChat | pkg/gateway/openai_proxy.go:341-445 | the same for an answer in one piece, with the deciding answer's tokens |
| Chat.BillsIsARun | pkg/gateway/openai_proxy.go:341-381 | a request's billing is the arrival and the completion of the general runs |
| Chat.RequestSettles | pkg/gateway/openai_proxy.go:1253-1303 | a fresh approved request leaves one closed row and costs its consumer exactly the charge, nobody else anything |
| Chat.LostSettlementKeepsHold | pkg/gateway/openai_proxy.go:1292-1302 | a fresh approved request whose settlement is lost leaves its row reserved and its consumer down by the hold, whatever its outcome |
| Chat.FreeExactlyWhenSettled | pkg/gateway/openai_proxy.go:359-381 | a failed request leaves every balance as it was exactly when it had no session or its settlement got through |
| Chat.OneLostRequest | pkg/gateway/openai_proxy.go:502-520 | one lost request takes a consumer's only deposit and the next request is refused |
| Chat.FailuresAreFree | pkg/gateway/openai_proxy.go:1281-1292 | a failed request that is settled changes no balance |
| Chat.StreamChargesBackendTokens | pkg/gateway/openai_proxy.go:568-678 | from the node's backend to the ledger: the client has the backend's text, [DONE] unless it broke off, and pays for the backend's token count exactly then |
| Chat.IssuedKindDecidesHold | pkg/dataplane/postgres_store.go:304-322 | a request under a newly issued key stands for its consumer, and is held when the key was issued prepaid and the ledger covers the hold, and never when it was issued x402 |
| Chat.PromptIsBilledTwice | pkg/gateway/openai_proxy.go:1317-1321 | an answer of exactly max_tokens to a prompt of 5 tokens is priced 5 tokens above its hold |
| Chat.NodeAnswerIsCovered | pkg/node/inference.go:218 | in range, a node's answer is charged its whole price exactly when a cap stops the price at the hold or estimate, prompt and completion together come to no more than the hold; prompt plus completion within the default output tokens suffices |
| ApiKeys.LookupIsBijection | pkg/dataplane/postgres_store.go:304-344 | a hash resolves to a consumer exactly when the consumer's column holds it |
| ApiKeys.OneLiveKey | pkg/dataplane/postgres_store.go:304-344 | a consumer with a hash has exactly that one live key |
| ApiKeys.IssuedKeyResolves | pkg/dataplane/postgres_store.go:241-322 | an accepted upsert makes its hash resolve to the consumer with the given kind and wallet, or the previous wallet when none is given |
| ApiKeys.OwnersAreConsumers | pkg/dataplane/postgres_store.go:304-322 | every key resolves to the kind and wallet of its consumer's row |
| ApiKeys.ReportedHashResolves | pkg/dataplane/postgres_store.go:324-344 | the hash reported for a consumer resolves to it, and none is reported without one |
| ApiKeys.UpsertRefusedExactly | db/migrations/0002_phase2_control_security.sql:14-16 | an upsert is refused exactly when another consumer's column holds the hash |
| ApiKeys.RunKeepsHashesUnique | db/migrations/0002_phase2_control_security.sql:14-16 | over every run, with reused hashes too, no two consumers hold the same hash |
| ApiKeys.UpsertLinksExactly | pkg/dataplane/postgres_store.go:241-271 | an upsert keeps the tables in agreement exactly when the hash is new or already the consumer's |
| ApiKeys.ReusedHashIsDead | pkg/dataplane/postgres_store.go:256-266 | upserting another consumer's revoked hash, which only a direct caller of the store can do, leaves a key that resolves to nobody |
| ApiKeys.RunLinked | pkg/dataplane/postgres_store.go:241-302 | over every run with fresh hashes each hash column points to an active key row of its consumer |
| ApiKeys.DeadKeysStayDead | pkg/dataplane/postgres_store.go:273-322 | over any run, a hash that does not resolve, known or unknown, never does unless upserted |
| ApiKeys.RevokedNeverResolves | pkg/dataplane/postgres_store.go:273-302 | in particular a revoked key |
| ApiKeys.SupersededNeverResolves | pkg/dataplane/postgres_store.go:241-271 | and one that a newer key of the consumer has replaced |
| ApiKeys.ConsumerIdIsTrimmed | pkg/gateway/control_api.go:750-753 | an id made from a wallet is not empty and not changed by trimming |
| ApiKeys.WalletsAreNormalized | pkg/gateway/control_api.go:750-753 | white space around a wallet and the case of its letters make no difference to the consumer id |
| ApiKeys.HandlePrepaidTopup | pkg/gateway/control_api.go:587-611 | the handler records the payment, then issues a key only to a consumer without one |
| ApiKeys.HandleRotate | pkg/gateway/control_api.go:428-449 | the operator's rotate upserts the new key only after it revoked the named one |
| ApiKeys.HandlePrepaidRotate | pkg/gateway/control_api.go:653-685 | the holder's rotate replaces the key that was presented |
| ApiKeys.TopupLeavesOneKey | pkg/gateway/control_api.go:587-611 | a completed top-up that nothing interrupts leaves exactly one live key: the one there was, else the new one |
| ApiKeys.InterruptedTopup | pkg/gateway/control_api.go:595-611 | after any calls between the handler's lookup and its upsert the new key is the only live one, and no key is lost exactly when none was issued in between |
| ApiKeys.OverlappingTopupsLoseAKey | pkg/gateway/control_api.go:595-611 | two overlapping first top-ups of one wallet: the key issued first never resolves again |
| ApiKeys.TopupIssuesKey | pkg/gateway/control_api.go:595-611 | with a fresh hash, a recorded payment always completes |
| ApiKeys.TopupPaysIn | pkg/gateway/control_api.go:587-611 | a completed top-up credits its payer once for each fingerprint and nobody else, and the key it issues resolves as prepaid with the payer's wallet |
| ApiKeys.RotationMovesTheKey | pkg/gateway/control_api.go:653-685 | the new hash resolves to the old owner, the old one to nobody, every other hash as before |
| ApiKeys.OnlyLiveKeysRotate | pkg/gateway/control_api.go:653-685 | a presented key rotates exactly when it resolves, and otherwise nothing changes |
| ApiKeys.OperatorRotationLeavesOneKey | pkg/gateway/control_api.go:386-455 | after a rotate only the new key of the consumer is live, with the given kind and wallet |
| Order.SortUnique | pkg/gateway/openai_proxy.go:883-921 | a strict total order has only one sorted list of a set |
| Order.TextLessMeans | pkg/registry/registry.go:223-227 | a proper prefix comes first, and else the string with the smaller character at the first difference |
| Order.TextsSort | pkg/registry/registry.go:148-180 | sorting strings, repetitions included, leaves a sorted permutation |
| NodeRegistry.Registry.constructor | pkg/registry/registry.go:83-97 | empty, with the defaults for a missing interval or limit |
| NodeRegistry.Registry.ApplyHealthProto | pkg/registry/registry.go:104-128 | refuses a nil or anonymous message and else merges it into its sender's record only |
| NodeRegistry.Registry.ApplyHealthJSON | pkg/registry/registry.go:131-164 | likewise; an empty list of models or prices keeps the old one |
| NodeRegistry.Registry.ApplyNodeAnnounceProto | pkg/registry/registry.go:167-193 | likewise; the announced models replace the old ones even when empty |
| NodeRegistry.Registry.PruneStale | pkg/registry/registry.go:197-209 | removes exactly the records last seen before the cutoff and returns the drop in size |
| NodeRegistry.Registry.List | pkg/registry/registry.go:232-241 | all records in id order, whatever the map's iteration order |
| NodeRegistry.Registry.NodesForModel | pkg/registry/registry.go:212-229 | the records that advertise the model, in id order |
| NodeRegistry.ModelListIsSublist | pkg/registry/registry.go:212-241 | the second list is the matching sublist of the first |
| NodeRegistry.RecordsSummarizeLives | pkg/registry/registry.go:104-209 | for every sequence of messages and prunes a node is known exactly while it has messages since its last prune, its record is their stateless summary, and its models are the sorted list of the last announce or non-empty update |
| NodeRegistry.MessagesDateRecords | pkg/registry/registry.go:104-193 | a message dates its sender's record by its own time stamp where it has one, and else by the receiver's clock |
| NodeRegistry.PrunesDropOldRecords | pkg/registry/registry.go:197-209 | after any run a prune keeps exactly the records last seen at the cutoff or later, unchanged |
| NodeRegistry.ListedForItsModels | pkg/registry/registry.go:212-229 | a record is listed exactly for the non-empty names it carries |
| NodeRegistry.AfterFiled | pkg/registry/registry.go:104-193 | records are filed under their own non-empty id |
| Ranking.RankOrders | pkg/gateway/openai_proxy.go:883-921 | the comparator is a strict total order on records with distinct ids |
| Ranking.RankIsLexicographic | pkg/gateway/openai_proxy.go:883-921 | the chain of comparisons is the lexicographic order of load, time to first token, decode rate, latency, uptime and last-seen time, then of the id, missing samples last |
| Ranking.RankingIsUnique | pkg/gateway/openai_proxy.go:883-921 | two rankings of one registry for one model are the same list |
| Ranking.RankedNodesForModel | pkg/gateway/openai_proxy.go:883-921 | returns a ranking |
| Ranking.ReorderNodesByPing | pkg/gateway/openai_proxy.go:836-881 | the input nodes with ascending latencies, whole milliseconds of the ping or else as advertised; among equal ones those that answered first, then smaller advertised latency, then smaller id; unchanged when there is nothing to measure or reorder |
| Ranking.PingOrderMeans | pkg/gateway/openai_proxy.go:836-881 | that order, in terms of the ping results and the input nodes alone, for every list the comparator accepts |
| Ranking.PingOrderIsUnique | pkg/gateway/openai_proxy.go:836-881 | with fixed ping results the list does not depend on the order of the input |
| StreamRelay.ServeStream | pkg/node/inference.go:135-235 | however many writes succeed, the node writes that prefix of its one emission, and it is a success, with the backend's tokens, exactly when the backend produced something, did not break off, and all of it was written |
| StreamRelay.RelayBackend | pkg/node/inference.go:174-235 | the chunk loop's writes, tokens and outcome for every number of successful writes |
| StreamRelay.OneTerminalChunk | pkg/node/inference.go:135-235 | an emission is non-terminal ok chunks followed by exactly one terminal chunk |
| StreamRelay.EmittedItemByItem | pkg/node/inference.go:174-235 | each backend item is written as one chunk with its model, text and both counts, an EOF as a blank end, an undecodable item as an error |
| StreamRelay.ServedItemByItem | pkg/node/inference.go:174-235 | the node counts a stream as served exactly when every chunk up to the done one, or all before EOF, was written and nothing broke off |
| StreamRelay.StreamFromNodes | pkg/gateway/openai_proxy.go:523-678 | the first of at most three nodes that is not passed over decides; only a committed stream is relayed, and it is a success, with its reported tokens, exactly when every event before its [DONE] could be written |
| StreamRelay.FirstWillingNodeDecides | pkg/gateway/openai_proxy.go:526-566 | where the first k nodes, k at most 2, are passed over and the next is not, that one decides: a payment demand, a commit, or no way to stream |
| StreamRelay.ThreeTriesAtMost | pkg/gateway/openai_proxy.go:44 | no node after the third decides, and the request is left to the local backend exactly when the first three, or all there are, are passed over |
| StreamRelay.Verdicts | pkg/gateway/openai_proxy.go:548-595 | what makes a node passed over, demanded by or committed to, case by case |
| StreamRelay.RefusalsArrive | pkg/node/inference.go:135-171 | a node's refusal ends the request exactly when it is a payment demand that can be passed on |
| StreamRelay.RelayedItemByItem | pkg/gateway/openai_proxy.go:605-678 | the texts of the chunks in order, then [DONE] at EOF, the last text and [DONE] at a done chunk, and nothing more at an error |
| StreamRelay.DeliveredItemByItem | pkg/gateway/openai_proxy.go:605-678 | the gateway counts a stream as a success exactly when every text up to the last chunk's, or all before EOF, was written and nothing broke off |
| StreamRelay.ReportedItemByItem | pkg/gateway/openai_proxy.go:652-660 | the tokens of the done chunk, none at EOF or an error, never negative |
| StreamRelay.RelayCommitted | pkg/gateway/openai_proxy.go:568-678 | the client gets a prefix of the stream's events; success, with the tokens of the chunk that ended it, exactly when the stream ends in [DONE] and all before it could be written |
| StreamRelay.LaterNodesDoNotMatter | pkg/gateway/openai_proxy.go:523-566 | with any other nodes after the deciding one, the ending, the deciding node and its stream are the same |
| StreamRelay.DecisionIsUnique | pkg/gateway/openai_proxy.go:523-566 | the ending and its node are determined by the verdicts |
| StreamRelay.ClientSeesBackend | pkg/gateway/openai_proxy.go:568-678 | over an intact connection the client's text is the backend's up to its first done chunk, EOF or decode error, and [DONE] is sent exactly without a decode error |
| StreamRelay.TokensAreBackends | pkg/node/inference.go:218 | the billed tokens are prompt plus completion of the backend's done item |
| StreamRelay.CommitsToWorkingNodes | pkg/gateway/openai_proxy.go:551-566 | the gateway commits exactly to nodes whose backend did not start with an error |
| StreamRelay.AnswerFromNodes | pkg/gateway/openai_proxy.go:383-445 | of at most three nodes the first answer or relayable payment demand decides, and only an answer is a success |
| StreamRelay.FirstReplyDecides | pkg/gateway/openai_proxy.go:408-445 | where the first k answers, k at most 2, are passed over and the next is not, that one decides |
| StreamRelay.ThreeRepliesAtMost | pkg/gateway/openai_proxy.go:44 | no node after the third decides, and none does exactly when the first three, or all there are, are errors without a relayable demand |
| PeerLifecycle.Runtime.constructor | pkg/node/runtime.go:142-230 | no connections, timers or reports at first |
| PeerLifecycle.Runtime.ShouldLogPeerLifecycle | pkg/node/runtime.go:123-131 | bootstrap peers and peers seen in gossip are reported |
| PeerLifecycle.ReportedPeers | pkg/node/observe.go:81-85 | over every run a peer is reported on exactly when it is a bootstrap peer or was observed |
| PeerLifecycle.StrangersAreSilent | pkg/node/runtime.go:123-131 | over every run nothing is reported about any other peer |
| PeerLifecycle.LongGapIsReported | pkg/node/runtime.go:68-93 | a reported peer without connections is reported back unless it was lost less than ten seconds ago, and lost when its timer fires |
| PeerLifecycle.Runtime.ConnectedNotice | pkg/node/runtime.go:75-95 | counts, stops the timer and reports a return only from a long absence |
| PeerLifecycle.Runtime.DisconnectedNotice | pkg/node/runtime.go:97-121 | the last close starts the timer |
| PeerLifecycle.Runtime.TimerFired | pkg/node/runtime.go:107-119 | whether or not its timer is still registered, a callback reports a loss only if there is no connection |
| PeerLifecycle.CountsAreOpenConnections | pkg/node/runtime.go:75-121 | over every well-formed run the count is opens minus closes, and a pending timer means no connection and a recorded last-gone time |
| PeerLifecycle.ReportsAlternateExactly | pkg/node/runtime.go:75-131 | a bootstrap peer's reports alternate from connected exactly when no reconnection overtakes an overdue timer |
| PeerLifecycle.OvertakingBreaks | pkg/node/runtime.go:79-93 | whenever a timer is overtaken, two connected reports follow each other |
| PeerLifecycle.ReportsCanRepeat | pkg/node/runtime.go:79-93 | a well-formed run of three events that gives a bootstrap peer two connected reports in a row |
| PeerLifecycle.ShortGapIsSilent | pkg/node/runtime.go:79-121 | a gap below ten seconds is reported neither way, and the timer of a loss is due after exactly ten seconds |
| PaymentDebt.DebtBook.GetPaymentDebt | pkg/node/x402_paywall.go:214-222 | the debt of the normalized payer, 0 for a blank one |
| PaymentDebt.DebtBook.SetPaymentDebt | pkg/node/x402_paywall.go:224-239 | only the payer's entry changes, and a zero debt has none |
| PaymentDebt.DebtBook.ReconcileActualUsage | pkg/node/x402_paywall.go:241-283 | the payer's new debt is the session's prior debt plus due minus prepaid, whatever the debt is now, and nothing changes for free sessions |
| PaymentDebt.DueIsCeiling | pkg/node/x402_paywall.go:268-283 | in range the due amount is the ceiling of the tokens, at least one, times the rate over 1000, raised to the floor |
| PaymentDebt.DueIsCeilingExactly | pkg/node/x402_paywall.go:275 | without a floor it is that ceiling exactly while the sum fits 64 bits |
| PaymentDebt.UnpaidSessionOwesItsTokens | pkg/node/x402_paywall.go:241-283 | one session without prepayment leaves exactly that amount as debt |
| PaymentDebt.PayersAreNormalized | pkg/node/x402_paywall.go:214-224 | white space around a payer and the case of its letters make no difference to its debt |
| PaymentDebt.SettleSession | pkg/node/x402_paywall.go:214-266 | reading the debt, opening a session with it and settling that session adds the shortfall to the debt |
| PaymentDebt.SettleEffect | pkg/node/x402_paywall.go:224-266 | a session moves its own payer's debt by its shortfall, never below zero, and no other |
| PaymentDebt.DebtIsGreatestSuffixSum | pkg/node/x402_paywall.go:241-283 | after any sequence of sessions, each settled before its payer's next, the debt is the greatest suffix sum of the payer's own shortfalls |
| PaymentDebt.DebtCoversShortfall | pkg/node/x402_paywall.go:241-283 | debt plus prepayments cover everything due |
| PaymentDebt.SerialExactly | pkg/node/x402_paywall.go:241-256 | when sessions overlap, the debt is at every moment what one-at-a-time settlement would leave exactly when no settlement overwrites a debt that changed since its session was opened |
| PaymentDebt.DebtCoversUnlessOverwritten | pkg/node/x402_paywall.go:241-256 | then debt plus prepayments still cover everything due, and the suffix form holds |
| PaymentDebt.OneAtATimeOverwritesNothing | pkg/node/x402_paywall.go:241-256 | a payer with one open session at a time is such a case, whatever other payers do |
| PaymentDebt.OverlapLosesDebt | pkg/node/x402_paywall.go:241-256 | two overlapping unpaid sessions of any payer at any positive rate leave only the second amount due |
| PaymentDebt.FullPrepaymentClears | pkg/node/x402_paywall.go:241-256 | prepaying debt and due removes the payer's entry |
| Eip712.U256 | pkg/x402spike/eip712.go:284-292 | exactly the integers below 2^256 in absolute value have a word: 32 bytes whose big-endian value is the absolute value |
| Eip712.FillAddressWord | pkg/x402spike/eip712.go:278-282 | twelve zero bytes and the address |
| Eip712.AddressIsPadded | pkg/x402spike/eip712.go:278-282 | byte by byte twelve zeros and the address, with the address's value |
| Eip712.U256RoundTrip | pkg/x402spike/eip712.go:284-292 | the word of n below 2^256 decodes back to n, and no larger n has one |
| Eip712.WordRange | pkg/x402spike/eip712.go:284-292 | 32 bytes are 256 bits |
| Eip712.ValueInjective | pkg/x402spike/eip712.go:284-292 | byte strings of one length with one value are equal |
| Eip712.PreimageLayout | pkg/x402spike/eip712.go:209-232 | after the type hash come sender, receiver, value, start and end of validity and nonce, at their offsets |
| Eip712.PreimageDetermines | pkg/x402spike/eip712.go:209-232 | two authorizations share a preimage exactly when all six fields agree, integers up to sign |
| Eip712.PreimageInjective | pkg/x402spike/eip712.go:209-232 | on unsigned integers the preimage is injective |
| WirePricing.Translate | cmd/tooti/main.go:450-473 | the loop and the conditional parameters give the request's messages, exactly its parameters and its trimmed id, or a non-empty one from the clock |
| WirePricing.IdsTravelTrimmed | cmd/tooti/main.go:450-453 | a request id travels without surrounding white space, and a blank one becomes "req-" and the clock's nanoseconds in decimal |
| WirePricing.ParamsByName | cmd/tooti/main.go:463-473 | each setting that is present is carried under its name, and nothing else |
| WirePricing.MaxTokensSurviveTheWire | cmd/tooti/main.go:466-468 | printed and parsed, max_tokens comes back as it was, and 0 when absent or not positive |
| WirePricing.QuoteIsPriceOfLargestAnswer | pkg/gateway/x402_paywall.go:207-243 | the gateway quotes its price for the larger of default and max_tokens, at least 1, and nothing without a rate |
| WirePricing.NodeRatesResolve | pkg/node/x402_paywall.go:137-158 | a node resolves its rates for a model as the gateway does |
| WirePricing.NodesAskSomething | pkg/node/x402_paywall.go:100-135 | a node without a rate asks for 1, and every node for at least 1 |
| WirePricing.PricesAgreeAcrossTheWire | pkg/node/x402_paywall.go:100-171 | with equal figures the gateway's amount is the node's cut to the cap, and equal to it exactly while the cap does not bind, also where 64 bits wrap |
| Text.ParsePrinted | pkg/node/x402_paywall.go:110-112 | decimal printing and 64-bit parsing round-trip exactly for numbers that fit |
| Text.ParseSigned | pkg/node/x402_paywall.go:110-112 | signs are read, a minus sign down to the smallest 64-bit number |
| Text.ParseRefuses | pkg/node/x402_paywall.go:110-112 | a text with any other character is no number |
| Text.TrimSpaceTrims | pkg/gateway/control_api.go:750-753 | trimming removes white space at both ends, all of it and nothing else |

## Left out

- Floating point: balances and prices are float64 in Go and `NUMERIC(20,6)` in the tables; the model has exact micro-USDC and no column overflow. Loads and decode rates are reals, so NaN does not occur in a comparator.
- Isolation: a transaction's step is one statement against committed rows, as under READ COMMITTED; foreign-key share locks are not modelled, because no modelled statement conflicts with them. API-key calls are atomic steps.
- Serial ids, timestamps, revocation reasons, usage rows and `CurrentConsumerBalance`: plain columns and reads; of the usage row only the cost is modelled.
- Store failures: a cancelled transaction is a step of the machine, and a settlement that does not reach the store is a parameter of the chat handlers and an uncompleted session of the runs; a hold whose reply is lost after its commit is not modelled.
- The chat payment wall, HTTP parsing and status codes, JSON, headers, SSE framing, model names and logging.
- Chat.HandleChatStream: the gateway's own backend is a parameter (its outcome), and so are the clock, the timeouts and the peers' answers; the deferred closing of streams is not modelled.
- Chat.HandleChat: the gateway's own backend is a parameter here too.
- StreamRelay.ServeStream: the request's checks are one refusal with its message, because each is a one-branch test.
- PeerLifecycle.ReportsAlternateExactly: timer callbacks are atomic and `Stop` takes effect at once; a callback that races with `Stop` and peers that are not bootstrap peers are not covered, and times start at 0.
- PaymentDebt.SettleSession: no code of the repository outside its test files opens a payment session; the model opens one with the payer's current debt, as the session's prior-debt field says.
- PaymentDebt.DebtIsGreatestSuffixSum: the sum of debt and due does not wrap (the due amount itself does).
- Eip712.PreimageDetermines: Keccak, the type hash and signatures are opaque; addresses that are not 20 bytes and nonces that are not 32 bytes have no preimage here.
- Text: lower-casing covers ASCII letters only. The strings of a priced message stand for their bytes, so that lengths are Go's; ids and names are characters.
- WirePricing.Translate: the temperature arrives printed.
- libp2p, gossip transport, DNS, the provider tables, telemetry, the retry client and the spike programs.
