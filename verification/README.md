# Payment gateway: verified model

This project models the payment gateway's own logic in Dafny and proves what its parts promise
together. `dafny verify dfyconfig.toml` checks all of it.

## What is modelled

- **Text, Payments** — trimming, ASCII case, digits, the composite keys `merchant:id`; the payment
  records, card masking and the sanitising of responses (internal/dto).
- **Scrub** — the recursive removal of card verification data from a JSON tree.
- **Store, Table** — the in-memory transaction store as a class over its maps, and the single
  PostgreSQL table (unique on merchant and key, newest row by payment id) as the specification that
  its two indexes refine.
- **Orchestrator, Idempotency** — `CreatePayment` as a class with its store, its state manager and its
  bounded retry loop, against one step function; then whole sequential runs of that step and the webhooks.
- **CreateOutcomes, WebhookOutcomes, Attempts** — what each call stores and answers, told from what was asked and said
  rather than from the functions that compute it; and which requests the velocity counters count.
- **Webhooks, Lifecycle** — the YooKassa, PayAnyWay and digital rouble handlers, each as a read of the
  store followed by a write, and the invariant kept by any interleaving of those reads and writes with
  the ones of `CreatePayment`.
- **Decimal, DigitalRuble, Scan** — printing and parsing of amounts, the signed check message, marked
  money, and a digital rouble payment from QR issue through any number of scans.
- **Refunds** — the refund handler and whole sequential runs of its ledger.
- **Velocity, Pruning, Risk** — the sliding-window store with its in-place pruning, what it keeps of the unpruned
  history whatever the clock does, and the risk verdict.
- **Reporting, Summary** — selection, sorting, truncation and summary of the transaction report.
- **Luhn, Domains, Validator** — the Luhn check, the disposable-domain suffix walk, request normalisation.

Each handler that changes state is a method whose postcondition ties the new state to a step function
of the old one; runs are then lemmas about those step functions. Adapters, the tokeniser, the router,
the validator's tag checks, the policy engine and the clock are parameters: arbitrary results, one per
call or attempt. Amounts are exact (`real`), times are whole nanoseconds since the zero time, a JSON or
XML text is the value it encodes, and a signature is the text it signs.

## Where the code differs from what its tests and documents suggest

- `MaskCardNumber` is not stable on its first application. A response leaves `CreatePayment` masked twice,
  so its card is the ten remaining digits without stars; `Payments.MaskStableFromSecond` says exactly when
  one masking is already stable (a card of at most ten digits).
- The idempotency lookup uses the ids as they came and the save the trimmed ones, so a request whose
  merchant id or key has spaces around it is sent again; `Idempotency.SendsAgainIffUntrimmed` is exact and
  `Idempotency.SpacedRequestIsSentTwice` a request that passes the validator and to which it happens.
- A rejected request goes on with its item list already normalised, because normalisation rewrites the
  shared list in place (`Validator.AfterRejection`).
- The velocity store reads the clock before it takes its lock, so attempts can be recorded out of order. An
  attempt that a later one overtakes by more than 24 hours is pruned, even if a window covers it again after
  the clock has stepped back. For every run, `Pruning.RecentExactlyIfNoneLost` says exactly when the buffer is
  the last 24 hours of the history at every point. Otherwise `Pruning.CounterMissesTheLost` says by how much each
  of the five windowed counters is off, and `Pruning.DistinctCardsExactly` when the two counts of distinct cards
  still rest on the same cards. Steps back within 24 hours are harmless (`Pruning.SteadyClockLosesNothing`).
- The lookup by payment id in memory keeps answering with a record whose key has moved on to another
  payment (`Table.MovedKeyIsStale`); `Table.PaymentLookupRefines` says exactly for which saves both stores agree.
- The table dates a row by the database's clock and memory by the save's own time;
  `Table.CreatedAtAgreesIffClocksDo` says exactly when the dates agree.
- The report's prefix scan also takes in merchants whose id goes on with a colon (`Reporting.PrefixScan`).

## Model

| member | source | states |
|---|---|---|
| Text.CompositeInjective | internal/subsystems/storage/inmemory_store.go:65 | map keys of colon-free merchants never collide |
| Text.CompositeInjectiveById | internal/subsystems/storage/inmemory_store.go:147 | neither do keys whose ids have no colon |
| Text.TrimDropsOnlySpaces | internal/subsystems/validator/payment_data_validator.go:180-187 | trimming takes spaces away at both ends and nothing else |
| Text.SpacesAreSix | internal/subsystems/validator/payment_data_validator.go:180-187 | the ASCII spaces that are trimmed |
| Payments.MaskStableFromSecond | internal/dto/payment.go:229-235 | masking is stable from its second application on, and at once exactly for at most ten digits |
| Payments.MaskFixedPoints | internal/dto/payment.go:229-235 | the fixed points of the mask are the empty text and ten bare digits; two maskings always reach one |
| Payments.SanitizedTwiceIsClean | internal/dto/payment.go:133-155 | two sanitisings leave no CVV, no token and a card that masks to itself |
| Payments.CleanIsStable | internal/dto/payment.go:133-155 | a response is unchanged by sanitising exactly when it is clean |
| Payments.SanitizedOnlyHides | internal/dto/payment.go:133-155 | sanitising changes the CVV, the card and the token with its preview, and nothing else |
| Payments.CollectDigits | internal/dto/payment.go:248-256 | the loop collects exactly the digits, in order |
| Payments.PreviewHidesMiddle | internal/dto/payment.go:237-246 | of a token longer than twelve characters only the first eight and the last four show, and tokens that agree there have one preview |
| Scrub.RemoveSensitiveAuthenticationData | internal/dto/payment.go:192-218 | the walk, in whatever order maps are visited, leaves the scrubbed tree and returns the flag |
| Scrub.NothingSensitiveRemains | internal/dto/payment.go:192-227 | after the removal no sensitive key is left at any depth |
| Scrub.PathsAfterScrub | internal/dto/payment.go:192-218 | a path keeps its scrubbed value unless it passes through a sensitive key; then it is gone |
| Scrub.ScalarsKept | internal/dto/payment.go:192-218 | scalars off the sensitive paths keep their value |
| Scrub.FlagIsPresence | internal/dto/payment.go:192-218 | the returned flag is true exactly when a sensitive key was present |
| Scrub.UntouchedWhenClean | internal/dto/payment.go:182-184 | a tree without sensitive keys is unchanged |
| Scrub.SecondRunIsIdle | internal/dto/payment.go:192-218 | a second run finds and changes nothing |
| Scrub.OnlyCardCodesGo | internal/dto/payment.go:220-227 | of an object exactly the members named CVV_CODE, CVV, CVC or CID go, whatever their capitals and spaces |
| Store.InMemoryTransactionStore.Save | internal/subsystems/storage/inmemory_store.go:43-87 | both indexes after a save; refused exactly without merchant or key or with a malformed payload, and then nothing changes |
| Store.SaveTells | internal/subsystems/storage/inmemory_store.go:43-87 | what both lookups find after a save, when it is refused, and that no other key is touched |
| Store.DecodedText | internal/httpapi/webhooks/digital_ruble_sandbox_handler.go:74-78 | nothing is decoded from an empty or broken text, an empty response from `{}` |
| Store.StoredTextIsSafe | internal/dto/payment.go:157-190 | no stored text keeps a CVV; one with an id keeps no token and a masked card only |
| Store.InMemoryTransactionStore.GetByIdempotencyKey | internal/subsystems/storage/inmemory_store.go:89-111 | the record under the composite key, an error exactly for empty ids |
| Store.InMemoryTransactionStore.GetByPaymentID | internal/subsystems/storage/inmemory_store.go:113-135 | the record under the composite key, an error exactly for empty ids |
| Store.InMemoryTransactionStore.SaveRefund | internal/subsystems/storage/inmemory_store.go:137-149 | the refund map after a save, with the status normalised |
| Store.SaveRefundTells | internal/subsystems/storage/inmemory_store.go:137-149 | a refund without a merchant or an id is not stored, any other is under both |
| Store.InMemoryTransactionStore.GetRefundByIdempotencyKey | internal/subsystems/storage/inmemory_store.go:164-179 | some record of the merchant and key, none exactly when there is none, in whatever order the map is walked |
| Store.NormalizeRefundStatus | internal/dto/refund.go:16-27 | the result is always one of the three statuses |
| Table.KeyLookupRefines | internal/subsystems/storage/postgres_store.go:142-174 | after any saves the lookup by key answers as the table exactly when the key's last save had a text |
| Table.PaymentLookupRefines | internal/subsystems/storage/postgres_store.go:369-375 | after saves at increasing times the lookup by payment answers as the newest row exactly when the payment's last save had a text and the last save of its key is still for that payment |
| Table.MovedKeyIsStale | internal/subsystems/storage/inmemory_store.go:82-84 | two saves of one key for two payments: memory still finds the first payment, the table has no such row |
| Table.TableAnswerIsUnique | internal/subsystems/storage/postgres_store.go:369-375 | at increasing times the newest-row query has only one answer |
| Table.StoreRefinesTable | internal/subsystems/storage/inmemory_store.go:43-135 | both lookups answer as the table on every history that saves texts and never moves a key to another payment |
| Table.MemoryByKey | internal/subsystems/storage/inmemory_store.go:77-84 | the index by key holds the last accepted save of that key |
| Table.MemoryByPayment | internal/subsystems/storage/inmemory_store.go:82-84 | the index by payment holds the last accepted save of that payment |
| Table.TableByKey | internal/subsystems/storage/postgres_store.go:122-137 | the row of a key is its last accepted save |
| Table.CreatedAtNeverChanges | internal/subsystems/storage/inmemory_store.go:74-79 | once set to a real time, the creation time of a key survives every later save |
| Table.RowKeepsFirstStamp | internal/subsystems/storage/postgres_store.go:131-137 | a row keeps the database clock's reading at the key's first save, whatever is saved later |
| Table.CreatedAtAgreesIffClocksDo | internal/subsystems/storage/postgres_store.go:49 | memory and table give a key the same creation time exactly when the database clock read the first save's own time |
| Velocity.VelocityStore.PruneLocked | internal/subsystems/antifraud/velocity.go:86-100 | pruning in the one buffer leaves exactly the events not older than the cutoff, in order, with `seen` their key set |
| Velocity.VelocityStore.RecordAndCount | internal/subsystems/antifraud/velocity.go:54-84 | the buffer after an attempt and the seven counters over it; keys stay distinct and `seen` exact |
| Velocity.VelocityStore.CountLocked | internal/subsystems/antifraud/velocity.go:102-140 | one pass computes five windowed counts and two counts of distinct cards |
| Attempts.SameKeyIffSameIds | internal/subsystems/antifraud/velocity.go:152-159 | requests with colon-free merchant and payment ids are the same attempt exactly when their three trimmed ids agree |
| Attempts.DifferentRequestsAreRecorded | internal/subsystems/antifraud/velocity.go:70-84 | of pairwise different requests the history records all, and the buffer holds exactly those no later one is more than 24 hours after |
| Attempts.CountedMeans | internal/subsystems/antifraud/velocity.go:102-140 | an attempt counts for another of the same merchant with the same card, e-mail, phone or wallet within 1 hour, 30 minutes, 1 hour, 1 hour, or with the merchant alone within 5 minutes |
| Attempts.LinkedMeans | internal/subsystems/antifraud/velocity.go:102-140 | an attempt shows its card for another of the same merchant with the same e-mail or phone within 24 hours |
| Attempts.WalletIsFirstOfThree | internal/subsystems/antifraud/velocity.go:165-175 | the wallet counted is the first of the three that is not blank |
| Pruning.BufferIsSurvivors | internal/subsystems/antifraud/velocity.go:70-100 | for every run, repeated requests and steps back of the clock included, the buffer holds in order exactly the attempts that went into it and that no later one overtook by more than 24 hours |
| Pruning.InBufferIffNotOvertaken | internal/subsystems/antifraud/velocity.go:86-100 | an event is in the buffer exactly when some attempt brought it there and was not overtaken |
| Pruning.RecentExactlyIfNoneLost | internal/subsystems/antifraud/velocity.go:70-100 | for every run the buffer is at every point the last 24 hours of the history exactly when nothing of the history was overtaken and yet covered |
| Pruning.BufferIsRecentHistory | internal/subsystems/antifraud/velocity.go:70-84 | then the buffer equals the last 24 hours of the unpruned history, event by event |
| Pruning.CountersRefineHistory | internal/subsystems/antifraud/velocity.go:102-140 | and all seven counters equal those over the unpruned history |
| Pruning.SteadyClockLosesNothing | internal/subsystems/antifraud/velocity.go:70-84 | such are all runs whose clock never steps back, and all in which no attempt is more than 24 hours after an earlier one |
| Pruning.CounterMissesTheLost | internal/subsystems/antifraud/velocity.go:102-140 | for every run each of the five windowed counters is short of the history by exactly the lost attempts it should count, and ahead by the repeats the buffer took up again |
| Pruning.DistinctCardsExactly | internal/subsystems/antifraud/velocity.go:102-140 | for every run the buffer shows the same distinct cards as the history exactly when the card of every lost linked attempt is also on a linked one that is present, and conversely for the repeats taken up again |
| Pruning.FreshCardsExactly | internal/subsystems/antifraud/velocity.go:102-140 | over different requests the count of distinct cards is never too high, and right exactly when the card of every overtaken linked attempt is also on a linked one that was not |
| Pruning.FreshRecentExactly | internal/subsystems/antifraud/velocity.go:70-100 | over different requests the buffer at the end of the run is the last 24 hours of the history exactly when none that they cover was overtaken |
| Pruning.StepBackLosesAttempts | internal/subsystems/antifraud/velocity.go:70-100 | a run of three attempts, at any time, in which the card counter reads 2 instead of 3 |
| Velocity.PruningKeepsCounts | internal/subsystems/antifraud/velocity.go:13-18 | no window is wider than the pruning window, so pruning changes no counter |
| Velocity.BufferKeysDistinct | internal/subsystems/antifraud/velocity.go:74-81 | keys in the buffer stay pairwise distinct over any run |
| Velocity.KeptIsStable | internal/subsystems/antifraud/velocity.go:86-100 | pruning keeps a stable subsequence and skips only events that are too old |
| Velocity.RepeatAddsNothing | internal/subsystems/antifraud/velocity.go:73-83 | repeating a request within 24 hours of its event adds nothing and raises no counter |
| Risk.Fold | internal/subsystems/antifraud/rule_based_antifraud.go:73-122 | with its early exit: BLOCKED iff a named rule blocks or the positive points reach 80, PASSED iff neither and no points, else REVIEW; score and reasons up to the exit |
| Risk.ResultOfPermutation | internal/subsystems/antifraud/rule_based_antifraud.go:76-122 | the verdict does not depend on the order of the rules |
| Risk.ResultMonotone | internal/subsystems/antifraud/rule_based_antifraud.go:76-122 | replacing rules by ones that are no milder never softens the verdict |
| Risk.VerdictMonotone | internal/subsystems/antifraud/rule_based_antifraud.go:124-215 | no larger amount and no higher counter ever softens the verdict, for any policy that does not soften its own finding |
| Risk.PolicyVerdictMonotone | internal/subsystems/antifraud/opa_policy.go:16-40 | nor does it with the embedded policy, which reads the amount itself |
| Risk.VelocityRuleMonotone | internal/subsystems/antifraud/rule_based_antifraud.go:124-192 | higher counters never lower the velocity score or lift its block |
| Risk.CheckVelocity | internal/subsystems/antifraud/rule_based_antifraud.go:124-192 | the step-by-step score card sums the tiers of the seven counters |
| Risk.VelocityPoints | internal/subsystems/antifraud/rule_based_antifraud.go:124-192 | the points each counter adds as it reaches its limits, and the two limits that block |
| Risk.AmountVerdict | internal/subsystems/antifraud/rule_based_antifraud.go:194-215 | from 500000 on an amount blocks; from 100000 on it asks for a review and blocks what the other rules give 45 points; below it changes no verdict |
| Risk.PointsVerdict | internal/subsystems/antifraud/rule_based_antifraud.go:97-122 | without a rule that blocks, 80 points block and any ask for a review |
| Risk.PolicyVerdict | internal/subsystems/antifraud/opa_policy.go:16-40 | the embedded policy blocks from 500000 on and for both deny lists, 100 points each |
| Risk.RepeatIsNeverHarsher | internal/subsystems/antifraud/rule_based_antifraud.go:51-122 | repeating a request within 24 hours of its event never hardens its verdict |
| Risk.RuleBasedAntiFraud.Check | internal/subsystems/antifraud/rule_based_antifraud.go:51-71 | records nothing when the call was cancelled; otherwise records the attempt first, then the verdict over all rules with counters from the updated buffer |
| Validator.WithoutNoiseIsClean | internal/subsystems/validator/payment_data_validator.go:213-220 | a normalised phone has none of the four separators, and one without them is unchanged |
| Validator.NormalizedFixedPoints | internal/subsystems/validator/payment_data_validator.go:179-211 | normalisation leaves alone exactly the requests that are clean field by field |
| Validator.ValidatedRequest | internal/subsystems/validator/payment_data_validator.go:53-69 | a request is validated exactly when its checks pass, and goes on without its CVV either way |
| Orchestrator.LoopStops | internal/orchestrator/simple/orchestrator.go:226-266 | the loop makes at most the allowed attempts, all but the last unsettled, the last unsettled only if they ran out |
| Orchestrator.LoopIsBounded | internal/orchestrator/simple/retry.go:18-41 | at most n attempts and pauses of at most 50 n (n - 1) milliseconds for every limit n |
| Orchestrator.SimpleOrchestrator.SendWithRetries | internal/orchestrator/simple/orchestrator.go:226-266 | the loop ends at the first attempt that is not retried, with its result, its count, its pauses, one status and one send for each attempt |
| Orchestrator.StateManager.SetStatus | internal/orchestrator/simple/state_manager.go:27-34 | the map holds the last status set for each key |
| Orchestrator.LatestIsLast | internal/orchestrator/simple/state_manager.go:27-34 | a key has the status of its last update, and none before its first |
| Orchestrator.StateManager.GetStatus | internal/orchestrator/simple/state_manager.go:19-25 | the last status set for the payment, or the empty one |
| Orchestrator.SimpleOrchestrator.FailAndSave | internal/orchestrator/simple/orchestrator.go:293-317 | the failure response, its save and its status |
| Orchestrator.SimpleOrchestrator.CreatePayment | internal/orchestrator/simple/orchestrator.go:126-291 | the result, the store, the statuses and the sends of one whole call |
| CreateOutcomes.SendsExactlyWhenReached | internal/orchestrator/simple/orchestrator.go:171-266 | a call sends exactly when it is new, passed the checks, was not blocked by the risk check, and has a route, a token and an adapter |
| CreateOutcomes.FailuresByStage | internal/orchestrator/simple/orchestrator.go:171-225 | otherwise a new call sends nothing, and saves and answers the status, error code and message of the first stage that went wrong, in source order |
| CreateOutcomes.AnsweredByAdapter | internal/orchestrator/simple/orchestrator.go:226-290 | a call that reaches the adapter sends up to its first final attempt of three, and answers and saves that attempt's status, error and data with the validated request |
| CreateOutcomes.FailureCarriesRequest | internal/orchestrator/simple/orchestrator.go:353-371 | a failure carries the request with its card masked, and tells whether the risk check blocked or broke |
| CreateOutcomes.RejectionCarriesRequest | internal/subsystems/validator/payment_data_validator.go:53-69 | a rejected request is answered under its raw ids, with its items normalised unless the call was cancelled before |
| CreateOutcomes.ReplayTells | internal/orchestrator/simple/orchestrator.go:132-164 | a replay gives back the stored response, or the request in the stored status if no text is stored |
| CreateOutcomes.FailureTrace | internal/orchestrator/simple/orchestrator.go:166-225 | the statuses of a call that fails before the adapter |
| Idempotency.RetryOutcome | internal/orchestrator/simple/callback.go:24-58 | FAILED exactly when all allowed attempts were unsettled, otherwise the status of the last attempt, after unsettled ones |
| Idempotency.StatusTrace | internal/orchestrator/simple/orchestrator.go:171-276 | CREATED, PENDING, one CAPTURE_REQUESTED for each send, then the saved status |
| Idempotency.SavedUnder | internal/orchestrator/simple/orchestrator.go:288 | the save goes under the trimmed ids once the checks passed, under the raw ones before |
| Idempotency.CallIsAnswered | internal/orchestrator/simple/orchestrator.go:132-164 | after any call its key has a record whose replay is the call's own result |
| Idempotency.LaterCallsSendNothing | internal/orchestrator/simple/orchestrator.go:132-164 | in any run of CreatePayment and the three webhooks a later call of an answered key returns what is stored by then, sends nothing and leaves the store alone |
| Idempotency.LaterCallsReplay | internal/orchestrator/simple/orchestrator.go:132-164 | with no webhook in between it returns the first result |
| Idempotency.AtMostThreeSends | internal/orchestrator/simple/orchestrator.go:226-266 | over any such run each merchant and key causes at most three adapter sends |
| Idempotency.SendsAgainIffUntrimmed | internal/orchestrator/simple/orchestrator.go:132 | the same request sends again exactly when its merchant id or key has spaces around it |
| Idempotency.SpacedRequestIsSentTwice | internal/orchestrator/simple/orchestrator.go:132 | a request with a space before its key passes every check of the validator and is sent twice |
| Lifecycle.EveryRunKeepsGood | internal/orchestrator/simple/orchestrator.go:268-290 | over any interleaving of reads and writes every stored transaction has agreeing columns, a status other than CREATED, an error exactly when unsuccessful, a clean payload, and lies under the key its ids spell |
| Lifecycle.ProcessIsSound | internal/orchestrator/simple/orchestrator.go:293-317 | every answer CreatePayment makes up is clean and is saved as it is returned |
| Lifecycle.YooIsSound | internal/httpapi/webhooks/yookassa_handler.go:103-140 | whatever was loaded, the YooKassa write is sound |
| Lifecycle.PayIsSound | internal/httpapi/webhooks/payanyway_handler.go:120-138 | whatever was loaded, the PayAnyWay write is sound |
| Lifecycle.ScanIsSound | internal/httpapi/webhooks/digital_ruble_sandbox_handler.go:88-115 | whatever was loaded, the scan's write is sound |
| Lifecycle.CreateUninterrupted | internal/orchestrator/simple/orchestrator.go:126-291 | in the interleaving, a CreatePayment whose read and write are not interrupted does to the store what the method is proved to do |
| Lifecycle.YooUninterrupted | internal/httpapi/webhooks/yookassa_handler.go:103-143 | so does an uninterrupted YooKassa notification |
| Lifecycle.PayUninterrupted | internal/httpapi/webhooks/payanyway_handler.go:117-142 | so does an uninterrupted Pay URL call |
| Lifecycle.ScanUninterrupted | internal/httpapi/webhooks/digital_ruble_sandbox_handler.go:64-118 | so does an uninterrupted scan |
| Lifecycle.YooTwiceOnStore | internal/httpapi/webhooks/yookassa_handler.go:103-143 | delivering a notification twice changes nothing but a time in the stored response |
| Lifecycle.PayTwiceOnStore | internal/httpapi/webhooks/payanyway_handler.go:120-142 | so does making a Pay URL call twice |
| WebhookOutcomes.YooOutcome | internal/httpapi/webhooks/yookassa_handler.go:103-143 | after a notification the record is CAPTURED iff it said succeeded, DECLINED iff canceled, else PENDING, with the error and the provider's part that go with it |
| WebhookOutcomes.YooWithoutIds | internal/httpapi/webhooks/yookassa_handler.go:75-101 | without one of its ids a notification changes nothing |
| WebhookOutcomes.YooKeepsPayment | internal/httpapi/webhooks/yookassa_handler.go:103-137 | of a stored payment nothing else changes |
| WebhookOutcomes.YooBuildsPayment | internal/httpapi/webhooks/yookassa_handler.go:233-272 | an unknown payment is built from the notification |
| WebhookOutcomes.PayOutcome | internal/httpapi/webhooks/payanyway_handler.go:120-142 | after a Pay URL call the payment is stored as CAPTURED without an error, paid by the operation named |
| WebhookOutcomes.PayWithoutIds | internal/httpapi/webhooks/payanyway_handler.go:89-118 | without one of its ids a Pay URL call changes nothing |
| WebhookOutcomes.PayKeepsPayment | internal/httpapi/webhooks/payanyway_handler.go:120-138 | of a stored payment nothing else changes, its idempotency key included |
| WebhookOutcomes.PayBuildsPayment | internal/httpapi/webhooks/payanyway_handler.go:191-223 | an unknown payment is built from the call, in roubles if no currency is given |
| Webhooks.ServeYooKassa | internal/httpapi/webhooks/yookassa_handler.go:75-143 | the store after a notification; ignored without its three ids |
| Webhooks.ServePayAnyWay | internal/httpapi/webhooks/payanyway_handler.go:89-142 | the store after a Pay URL call |
| Webhooks.ServeScan | internal/httpapi/webhooks/digital_ruble_sandbox_handler.go:50-118 | the store and the answer after a scan: refused ones change nothing, accepted ones return the response they store |
| Decimal.RoundedIsNearest | internal/subsystems/digitalruble/soap.go:71 | rounding to kopecks moves an amount by at most half a kopeck and is idempotent |
| Decimal.TiesGoToEven | internal/subsystems/digitalruble/soap.go:71 | half a kopeck goes to the even kopeck |
| Decimal.ParsePrint | internal/subsystems/digitalruble/soap.go:153 | printing kopecks and parsing the text undo each other |
| Decimal.ParseFormat | internal/subsystems/digitalruble/soap.go:169-172 | a printed amount reads back as the amount rounded to kopecks |
| DigitalRuble.FindPrimaryCategory | internal/subsystems/digitalruble/marked_money.go:96-104 | the loop finds the first category that is not blank |
| DigitalRuble.PrimaryIsFirst | internal/subsystems/digitalruble/marked_money.go:96-104 | the category is that of the first item that has one, or `general` |
| DigitalRuble.CategoryIsStable | internal/subsystems/digitalruble/marked_money.go:106-111 | the category a check settles on is a fixed point |
| DigitalRuble.MarkIsNormal | internal/subsystems/digitalruble/marked_money.go:113-128 | every required mark survives normalisation |
| DigitalRuble.MarkOfWord | internal/subsystems/digitalruble/marked_money.go:106-128 | which words ask for which mark, however they are written |
| DigitalRuble.WalletBalances | internal/subsystems/digitalruble/marked_money.go:178-212 | the marked balances of the emulated wallets |
| DigitalRuble.NormalizeTwice | internal/subsystems/digitalruble/soap.go:190-208 | normalising a check is idempotent |
| DigitalRuble.RoundTrip | internal/subsystems/digitalruble/soap.go:53-84 | parsing a built message fails exactly when an id is blank, otherwise gives the normalised check, amount rounded, message id trimmed |
| DigitalRuble.SignatureSurvives | internal/subsystems/digitalruble/soap.go:146-160 | the text signed over the parsed check is the one signed when building exactly when the message id was trimmed |
| DigitalRuble.SignatureBinds | internal/subsystems/digitalruble/soap.go:146-160 | two normal checks without bars in their fields are signed alike only if they agree in every field, amounts to the kopeck |
| Scan.ContractOfCheck | internal/subsystems/digitalruble/soap.go:87-103 | through the message the wallet is checked for the mark, contract and id given and the amount rounded |
| Scan.ContractOfIssued | internal/httpapi/webhooks/digital_ruble_sandbox_handler.go:177-208 | for an issued payment the emulated contract always answers, echoes the mark, contract and message id of the issue, and allows the payment iff the marked balance covers the rounded amount |
| Scan.ScanOfIssued | internal/httpapi/webhooks/digital_ruble_sandbox_handler.go:88-112 | a scan stores CAPTURED iff a capture is asked for, the QR has not expired and the marked balance covers the rounded amount; what QR issue fixed stays |
| WebhookOutcomes.ScanOutcome | internal/httpapi/webhooks/digital_ruble_sandbox_handler.go:88-112 | what a scan of an issued payment stores: by what the bank said, else by the expiry, else CAPTURED or declined by the marked balance of the first wallet named, payer's before customer's |
| WebhookOutcomes.NamedPayerPays | internal/httpapi/webhooks/digital_ruble_sandbox_handler.go:210-223 | that wallet is the payer's if the scan names one, whatever the customer has |
| WebhookOutcomes.OtherRailsAreRefused | internal/httpapi/webhooks/digital_ruble_sandbox_handler.go:79-82 | a payment of another rail is not scanned |
| WebhookOutcomes.CheckOfResponse | internal/subsystems/digitalruble/marked_money.go:70-94 | a scan checks the mark and contract written in the response, or else those its items and request ask for |
| WebhookOutcomes.SentQr | internal/subsystems/adapter/digital_ruble_adapter.go:51-84 | what the adapter answers when it issues a QR code |
| WebhookOutcomes.SentContract | internal/subsystems/digitalruble/marked_money.go:130-136 | the contract it names is the request's, or the default one |
| WebhookOutcomes.QrIsAnswered | internal/orchestrator/simple/orchestrator.go:226-290 | through it CreatePayment sends once and answers a pending payment with that code |
| Scan.CreatedHoldsIssue | internal/subsystems/adapter/digital_ruble_adapter.go:51-84 | CreatePayment through the adapter stores ids, amount, contract, QR id, expiry and the mark required by the first category |
| Scan.CallsKeepIssue | internal/httpapi/webhooks/digital_ruble_sandbox_handler.go:64-118 | over any run in which only scans write the payment, other payments' calls and webhooks included, the stored record keeps what QR issue fixed |
| Scan.AcceptedIffQrNamed | internal/httpapi/webhooks/digital_ruble_sandbox_handler.go:79-86 | a scan of an issued payment is accepted exactly when it names no QR code or the issued one, if one was issued |
| Scan.GatewayPaymentScan | internal/httpapi/webhooks/digital_ruble_sandbox_handler.go:177-247 | from CreatePayment through any such run, one more scan of the payment is accepted or turned away by the QR code it names and then decides by what was issued |
| Refunds.RefundHandler.Create | internal/httpapi/refunds/handler.go:63-215 | what one call does to the ledger: refused, replayed, or two saves around one adapter call |
| Refunds.RefusedInOrder | internal/httpapi/refunds/handler.go:81-142 | when a call is refused and with which code, in source order; a refusal changes nothing |
| Refunds.StatusSaid | internal/dto/refund.go:16-27 | which words of the adapter mean success and which failure |
| Refunds.RunsKeepGood | internal/httpapi/refunds/handler.go:94-199 | with fresh ids each merchant and key has at most one record and one adapter call, and every record stems from a call for a payment CAPTURED then: a full refund with the payment's amount, a partial one with the amount asked for, in the currency given or the payment's, with the status and error that the adapter's answer means |
| Refunds.LaterRefundsReplay | internal/httpapi/refunds/handler.go:94-100 | a later call of an answered key returns that record and changes nothing |
| Refunds.RecordStays | internal/subsystems/storage/inmemory_store.go:147 | a record is never rewritten by a later call |
| Refunds.NormalizedTwice | internal/dto/refund.go:16-27 | normalising a refund status twice is normalising it once |
| Reporting.SortReportRecords | internal/subsystems/storage/reporting.go:284-292 | the exchange sort permutes the array into newest-first order |
| Reporting.NewestRecords | internal/subsystems/storage/reporting.go:107-136 | whatever order the map is walked in: min(limit, matches) records, newest first, none dropped that is newer than one kept |
| Reporting.PrefixScan | internal/subsystems/storage/reporting.go:108-115 | the exact keys a colon-free merchant's prefix takes in |
| Reporting.ScopeIsExact | internal/subsystems/storage/reporting.go:107-121 | among colon-free merchants the scan selects exactly the merchant's transactions and recovers their payment ids |
| Reporting.ListedStatus | internal/subsystems/storage/reporting.go:146-201 | a listed item has the status filtered by exactly when its payload's status is blank or agrees with the column |
| Reporting.StatusFilterHolds | internal/subsystems/storage/reporting.go:139-158 | in every reachable store a listed item has the status filtered by |
| Reporting.SelectedExactly | internal/subsystems/storage/reporting.go:107-158 | in a good store exactly the transactions under the prefix, within the dates, with the status, system and method asked for |
| Reporting.ItemShowsPayment | internal/subsystems/storage/reporting.go:200-218 | an item shows the stored payment's ids, status, amount, method, provider's part and times |
| Reporting.UndecodedItem | internal/subsystems/storage/reporting.go:186-218 | a record whose text cannot be decoded is listed by its columns, without an amount |
| Reporting.LimitOfReport | internal/subsystems/storage/reporting.go:253-265 | 100 records unless another number is asked for, never more than 500 |
| Summary.BucketsConserve | internal/subsystems/storage/reporting.go:220-251 | in each bucket map the counts and amounts add up to the totals |
| Summary.BucketIsItsItems | internal/subsystems/storage/reporting.go:246-251 | a bucket holds exactly the items with its key |
| Summary.ClassesConserve | internal/subsystems/storage/reporting.go:229-239 | the four class counters and the unclassified items add up to the total |
| Summary.CapturedIsItsBuckets | internal/subsystems/storage/reporting.go:229-241 | captured count and amount are those of the status buckets that read CAPTURED in upper case |
| Summary.ClassIsItsBuckets | internal/subsystems/storage/reporting.go:229-241 | every class counter is the sum of the status buckets of its statuses, in any capitals |
| Summary.ItemGoesIntoItsBuckets | internal/subsystems/storage/reporting.go:220-251 | an item goes into the buckets of its own status, system and method, or UNKNOWN |
| Summary.AverageTimesCount | internal/subsystems/storage/reporting.go:180-182 | the average times the count is the total |
| Summary.ReportSummary.AddTransaction | internal/subsystems/storage/reporting.go:220-244 | the totals updated in place are those of the items so far |
| Summary.BuildTransactionReport | internal/subsystems/storage/reporting.go:97-137 | the report lists the newest matching records and summarises exactly those; an error only without a merchant |
| Luhn.LuhnValid | internal/subsystems/validator/payment_data_validator.go:325-340 | the loop computes the recursive weighted sum, for any bytes |
| Luhn.LoggedLuhnValid | internal/subsystems/logging/masking.go:77-92 | the log masker's copy computes the same function |
| Luhn.AcceptsByTheStandard | internal/subsystems/validator/payment_data_validator.go:325-340 | a digit string is accepted exactly when the standard's count from the right is a multiple of ten |
| Luhn.DigitOfByte | internal/subsystems/validator/payment_data_validator.go:329 | a byte below the digits wraps to the top |
| Luhn.SingleDigitErrorDetected | internal/subsystems/validator/payment_data_validator.go:325-340 | an accepted number is rejected after any change of one digit |
| Luhn.AdjacentSwapDetected | internal/subsystems/validator/payment_data_validator.go:325-340 | swapping two neighbouring digits goes unnoticed exactly when they are equal or are 0 and 9 |
| Domains.IsDisposableEmailDomain | internal/subsystems/antifraud/disposable_domains.go:33-46 | the walk ends, true exactly when a dot-aligned suffix of the normalised domain is listed |
| Domains.ListedMeans | internal/subsystems/antifraud/disposable_domains.go:33-46 | a domain is listed exactly when a listed one is the whole of it or what follows one of its dots |
| Domains.IsDisposableEmail | internal/subsystems/antifraud/disposable_domains.go:25-31 | the domain tested is what follows the last `@` |
| Domains.DomainIgnoresCase | internal/subsystems/antifraud/disposable_domains.go:48-50 | a domain's capitals do not matter |
| Domains.SubdomainInherits | internal/subsystems/antifraud/disposable_domains.go:33-46 | a subdomain of a listed domain is listed, through all the normalising of both, unless its dot is followed by a space |

## Left out

- HTTP decoding, status codes, authentication, roles, logging, notifications, workflow sessions, wiring and network adapters: plumbing or oracles here.
- JSON, XML, URL and QR encodings, SHA-256 and HMAC: a message is the value it encodes, a signature the text it signs, a fingerprint an arbitrary function of the text.
- Floating point: amounts are exact reals, so negative zero and binary rounding of amounts are not modelled.
- Unicode case folding and spaces: text is ASCII; RFC 3339 text is its whole second.
- Decimal.ParseDecimal: reads sign, digits and one dot only; exponents, hexadecimal and special values never occur in a printed amount.
- Payload texts that are valid JSON but not a payment response: Store keeps `{}` and encoded responses, Scrub treats arbitrary trees, and the two are not joined.
- Scrub.RemoveSensitiveAuthenticationData: deletes from map values that it hands back, so aliasing between parts of a decoded tree (which decoding never produces) is not modelled.
- The rewriting of a shared item list during normalisation is modelled by its result, not by aliasing.
- The default messages of the error catalogue: a blank error message stays blank.
- Concurrent calls with one key: Lifecycle covers their interleaving, Idempotency only sequential runs.
- The texts of risk reasons, and the card, wallet, phone, e-mail and description rules: any rule result stands for them.
- The tag and regular-expression checks of the validator, card expiry and `atoi`: one arbitrary outcome; they are
  written out (`Validator.PassesWithPhone`) only for payments by phone.
- Refund lookup by id and listing by payment, the status and search endpoints: single map reads.
- Loading of the domain list: any set of domains is allowed.
