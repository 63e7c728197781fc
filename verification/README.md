# A verified model of the webycash server and its swap referee

Dafny 4.11. `dafny verify dfyconfig.toml` checks the whole project.

The project models four parts of the repository and proves what they are for.

1. **Swap referee** (`Swap*.dfy`, `Orchestrator.dfy`, `AuditAppend.dfy`). A swap is a persisted state machine driven by
   start, advance and cancel calls over a row store, an audit log, live signing sessions, a push transport and the
   webcash oracle. Every call is written once as a script of effects (`SwapProtocol`); a call may stop after any of
   them. `SwapOrchestrator.Orchestrator` is the imperative orchestrator, each method proved to perform exactly its
   script. The theorems of `SwapRuns` hold over every run of serialised calls, each cut off anywhere, with restarts of
   the process between them, which lose the signing sessions; a process that dies during a call is that call cut off and
   then a restart. `SwapInterleaving` lets calls overlap effect by effect, `SwapPerSwap` those of different swaps only;
   a write then stores its row merged into the one it finds at its turn, as `persist` does. `SwapWrites` says on rows alone
   what each effect must be at its turn; `SwapFacts` and `SwapReplies` draw from it who is sent what, what is signed for
   whom, who may cancel, and what a reply means.
   The clock, the verifier verdicts, the webcash answers, the cancel signature check, the signer's verdict on a
   counterparty key and best-effort calls are parameters (`Answers`), and the hash of an audit entry is an uninterpreted
   function.
2. **Token ledger** (`Ledger*.dfy`, `FdbStore.dfy`, `DynamoStore.dfy`, `RedisStore.dfy`, `RedisFdb*.dfy`,
   `StorageKeys.dfy`, `Htlc.dfy`, `Replace*.dfy`, `CompositeReplace.dfy`, `HealthCheck.dfy`, `Batcher*.dfy`). One abstract all-or-nothing
   replace, three backends that refine it or say exactly when they do not, the two-command cache over the durable
   store, conservation of amounts over whole runs, and the HTLC locks end to end.
3. **GPU SHA-256** (`Sha256*.dfy`, `ProofOfWork.dfy`). The FIPS 180-4 definition with bit-vector words, its constants tied to the roots they come from, host padding,
   the WGSL and CUDA kernels with their 16-word rolling schedule, chunked dispatch, and leading-zero counts.
4. **Wire formats and programs as data** (`Amount.dfy`, `WireTokens.dfy`, `Effects.dfy`). Fixed-point decimals and token
   grammars with their printers; the free monad of ledger effects and its interpreter.

## Where the code differs from what is written about it

The model follows the code.

- `advance_swap` is documented as safe to retry after an error. There are two ways in which it is not. A call that stops
  between consuming its signing session and writing the row leaves the session gone: after a settle call cut off there
  every later advance fails until Bob cancels, after a refund call the swap never moves again
  (`SwapRetries.StuckForever`). And a restart loses every session, since the signer keeps them in memory. Every next call
  goes through exactly while the session of the row's phase is open (`SwapRetries.ResumesExactlyWhileOpen`,
  `SwapRetries.RetryResumesExactly`), and a swap stays in flight until it ends exactly if neither happens to it
  (`SwapRetries.RetriesStickExactly`).
- After a restart "the refund path engages", say the comments of the signer and the store, and the roadmap says that the
  swap aborts cleanly. A swap that is in flight at a restart is never signed for again, to settle or to refund, and never
  reaches either phase (`SwapRestarts.NothingIsSignedAfterRestart`).
- `advance_swap` and `cancel_swap` read and write the row without compare-and-swap. Each session still signs at most once
  however calls overlap (`SwapInterleaving.SignsAtMostOnceInterleaved`), but that only one of the two sessions signs needs
  the calls of each swap to be serialised: then it holds (`SwapPerSwap.NeverBothSignaturesPerSwap`), and otherwise a
  schedule from the empty state breaks it (`SwapFromNothing.OverlapFromNothing`).
- The HTLC rule is documented as "claim or refund". The code refuses a refund whose witness also carries a preimage that
  is not hex, or the right preimage with another owner (`Htlc.AcceptsDocumentedExactly`, with a concrete witness in
  `Htlc.RefundWithPreimageIsRefused`).
- The comments also promise that the witness's owner hash is checked against the new output secret.
  `validate_replace_request` ignores its output secrets: a witness only *names* an owner, and any outputs with the same
  total pass (`ReplaceHandler.OutputOwnerIsNotChecked`, with an input in `ReplaceHandler.ClaimOwnerNeedNotBePaid`). An
  admitted request meets the documented rule exactly when each witness for a locked input names the hash of one of the
  request's outputs (`ReplaceHandler.DocumentedRuleExactly`).
- A replace is documented to conserve amounts. The handler compares the amounts that input and output tokens *name* and
  never the amounts *stored* for the inputs. Over a whole run, amounts are conserved exactly when each committed request
  declares what its inputs hold (`ReplaceRuns.ConservedThroughoutExactly`); the handler does not check that it does
  (`ReplaceHandler.WireAmountsAreTrusted`).
- The Redis script is described as atomic. It has no rollback: an output conflict leaves inputs spent and earlier outputs
  stored, and repeated inputs pass. It also takes the first output's field count for all outputs, so locked and unlocked
  outputs in one request are misread unless only the last is shorter (`RedisStore.LayoutRightExactlyAligned`, with an
  input in `RedisStore.LockedAfterPlainDisagrees`). `RedisStore.AgreesExactlyWhenFaithful` says for all requests when it
  does what the all-or-nothing replace does.
- The composite store's comments speak of invalidating cached inputs; the code leaves them, so a cached spent mark may be
  late (`RedisFdbCache.LateSpentMark`). It can be served late exactly when the flavor decodes from the amount alone or a
  copy from before the spend is cached or on its way (`RedisFdbCache.LateMarkExactly`).
- A webcash record caught between the two cache commands is served incomplete (`RedisFdbCache.HalfWrittenWebcashIsServed`);
  `RedisFdbCache.AnswerIsDurableExactly` says for every flavor exactly when an answer is the durable record.
- `Display` and `wats_to_string` do not round-trip the smallest i64 (`Amount.DisplayRoundTrips`).

## Model

| member | source | states |
|---|---|---|
| SwapRuns.NeverBothSignatures | referee/src/api/orchestrator.rs:433-638 | in every run of serialised calls, each stopping after any effect, with restarts anywhere, no swap gets both a settle and a refund signature, provided ids are unused and webcash, once it has answered spent for a hash, answers nothing else for it (neither unspent nor unknown) |
| SwapRuns.SignaturesCoverCommittedHash | referee/src/api/orchestrator.rs:473-520 | a signature only ever covers the transaction hash its swap was created with |
| SwapRuns.SettleReleaseIsEarned | referee/src/api/orchestrator.rs:193-245 | each settle release is preceded, in order, by both proofs accepted, an unspent pre-check, an insert push, a spent answer and the settle signature of that swap |
| SwapRuns.AuditTipIsChained | referee/src/api/orchestrator.rs:666-703 | in every run a stored audit tip is the hash of a logged entry that links back to the swap's init entry along the phase graph |
| SwapRuns.TerminalRowsNeverChange | referee/src/api/orchestrator.rs:433-463 | a terminal row stays as it is through any later calls; no row changes parties, payloads or creation time, and none disappears |
| SwapInterleaving.SignsAtMostOnceInterleaved | referee/src/musig2.rs:126-177 | with any number of start, advance and cancel calls in progress, their effects interleaved in any order, dying anywhere and across restarts, each session of each swap signs at most once |
| SwapPerSwap.NeverBothSignaturesPerSwap | referee/src/api/orchestrator.rs:433-638 | the same with calls of different swaps interleaved effect by effect, as long as no two calls of one swap are in progress at once |
| SwapPerSwap.PerSwapKeepsInv | referee/src/api/orchestrator.rs:101-638 | under such interleavings the whole invariant of serialised runs holds, and every call in progress remains legal whatever other swaps do |
| SwapPerSwap.PerSwapRunsAreSound | referee/src/api/orchestrator.rs:101-638 | so the other theorems of serialised runs hold too: signatures cover committed hashes, settle releases are earned, stored tips are chained, terminal rows stay, and no row changes parties, payloads or creation time |
| SwapWrites.CallFits | referee/src/api/orchestrator.rs:101-703 | whatever a call plans fits the stored row at its turn, as long as nobody else writes that row: recipients, payloads, hashes, keys, nonces, log entries and the change of the row; its merging writes store what it planned |
| SwapFacts.EveryEffectFits | referee/src/api/orchestrator.rs:101-638 | so in every run each effect is what it has to be, given the row stored at that time and what has happened since that row was written |
| SwapFacts.EveryEffectFitsPerSwap | referee/src/api/orchestrator.rs:101-638 | the same when calls of different swaps interleave |
| SwapFacts.PushesAreAddressed | referee/src/api/orchestrator.rs:496-638 | over such histories, settle releases go to Bob with the settle hash and Alice's encrypted partial, refund releases to Alice with the refund hash, inserts to Alice with Bob's encrypted secret, and invalidations carry the webcash hash to Bob after an abort and to Alice after a cancel |
| SwapFacts.SignaturesAreAlices | referee/src/api/orchestrator.rs:485-495 | each signature is made with the key and nonce of Alice that the row holds, on its own session's hash |
| SwapFacts.QuestionsAreTheSwaps | referee/src/api/orchestrator.rs:192-216 | webcash is asked about the row's hash, each verifier about its own party's proof |
| SwapFacts.EndsAreDelivered | referee/src/api/orchestrator.rs:496-638 | a settled swap has had its settle release pushed to Bob, a refunded one its refund release to Alice |
| SwapFacts.StatusIsOfPhase | referee/src/transaction.rs:47-64 | every stored row shows settled, refunded and canceled as such and as final, every other phase as pending |
| SwapFacts.RowsComeFromStarts | referee/src/api/orchestrator.rs:101-170 | every stored swap holds the parties, payloads, nonces and time of a start call of the run under its id |
| SwapReplies.OnlyPartiesCancel | referee/src/api/orchestrator.rs:285-411 | a swap becomes canceled only by a cancel call of its own that a party may make: signed by the requester's key over the whole request, by Bob up to the insert phase and by Alice before it |
| SwapReplies.CancelGoesThroughExactly | referee/src/api/orchestrator.rs:285-411 | such a call that is not cut off is done and stores the canceled row; any other fails and changes nothing |
| SwapReplies.CanceledSwapsWereCanceled | referee/src/api/orchestrator.rs:285-411 | in every run, a canceled swap's row names the requester and reason of a call that was entitled to cancel it when it was made |
| SwapReplies.CancelWindsUp | referee/src/api/orchestrator.rs:366-411 | a cancel that goes through has told Alice if an insert was out and closed sessions and HTLC record, each best effort apart |
| SwapReplies.EndWindsUp | referee/src/api/orchestrator.rs:505-520 | once an advance reports settled or refunded no session is open, and the HTLC record is closed the same way if it could be |
| SwapReplies.AbortTellsBob | referee/src/api/orchestrator.rs:547-572 | an abort that goes through ends with the invalidation push to Bob |
| SwapReplies.AdvanceTellsTheTime | referee/src/api/orchestrator.rs:465-638 | what an advance logs, enters and stores carries the first, second and third time it read the clock |
| SwapReplies.ReplyIsStoredPhase | referee/src/api/orchestrator.rs:433-463 | an advance that goes through reports exactly the end that is then stored; over swaps and starting ones are left alone |
| SwapReplies.StartFailsFor | referee/src/api/orchestrator.rs:192-247 | a start that is not cut off fails for a rejected proof first, then for webcash that is not unspent, and for nothing else |
| SwapReplies.StartMints | referee/src/api/orchestrator.rs:152-191 | a start that goes through has minted the swap record and the HTLC record that was answered |
| SwapInterleaving.BothSignaturesInterleaved | referee/src/api/orchestrator.rs:465-638 | a schedule the code can run, each write merged into the row it finds, takes two overlapping advance calls of a swap to both signatures although webcash takes nothing back, so serialising the calls of a swap is needed |
| SwapFromNothing.OverlapFromNothing | referee/src/api/orchestrator.rs:101-638 | and such a schedule starts from the empty state, for every retry budget |
| SwapFromNothing.BothSignaturesFromNothing | referee/src/api/orchestrator.rs:101-638 | from the empty state, for every retry budget, one start and then advance calls of that swap alone, one after the other, release both signatures if their answers may take a spent answer back |
| SwapInterleaving.PlanBegins | referee/src/api/orchestrator.rs:101-638 | only a start opens sessions, each of its own two once |
| SwapNecessity.BothSignaturesIfSpentIsTakenBack | referee/src/api/orchestrator.rs:465-638 | if webcash may answer unspent or unknown after spent, four advance calls of which one fails at its release push give both signatures |
| SwapRetries.ResumesExactlyWhileOpen | referee/src/api/orchestrator.rs:433-638 | past the start, every next advance call goes through if and only if the session its phase signs with is open |
| SwapRetries.RetryResumesExactly | referee/src/api/orchestrator.rs:413-638 | in every phase, after an advance call cut off after n effects or a restart, all next calls go through if and only if it was no cut between consuming the session and storing the row and no restart in a phase that signs |
| SwapRetries.CutAnywhere | referee/src/api/orchestrator.rs:465-638 | wherever a failing collaborator stops an advance call of a swap in flight, the swap is stuck where it was, or still in flight with both sessions open, or ended |
| SwapRetries.StepOfFlight | referee/src/musig2.rs:187-194 | a spoiling cut or a restart strands a swap in flight, any other step but its cancel leaves it in flight or ended |
| SwapRetries.RetriesStickExactly | referee/src/api/orchestrator.rs:413-463 | after any run without a cancel of it, other swaps' calls included, a swap that was in flight is in flight or ended if and only if no cut spoiled it and the process was not restarted while it was in flight |
| SwapRestarts.NothingIsSignedAfterRestart | referee/src/store/mod.rs:31-36 | whatever calls follow, a swap that is not settled or refunded at a restart never is, and the referee signs nothing for it any more |
| SwapRetries.StuckForever | referee/src/api/orchestrator.rs:433-638 | a spoiled swap keeps its row through any later calls on any swaps and any restarts, but for a cancel by Bob after a spoiled settle |
| SwapLocality.CallAbout | referee/src/api/orchestrator.rs:101-638 | every effect of a call is about the swap the call names |
| SwapInvariant.LegalScriptKeepsInv | referee/src/api/orchestrator.rs:101-638 | wherever a script of legal effects stops, the invariant over rows, log, sessions and history holds |
| SwapScripts.StartLegal | referee/src/api/orchestrator.rs:101-247 | every effect of a start call is legal at its turn |
| SwapScripts.AdvanceLegal | referee/src/api/orchestrator.rs:433-638 | every effect of an advance call is legal at its turn |
| SwapScripts.CancelLegal | referee/src/api/orchestrator.rs:285-411 | every effect of a cancel call is legal at its turn |
| SwapAuditLog.LogIsLinearChain | referee/src/audit/mod.rs:63-148 | when no call of a swap fails, whatever becomes of other swaps' calls, its log is one linear chain from its init entry ending in the stored tip |
| SwapProgress.AttemptCounterNeverOverflows | referee/src/state/transitions.rs:99-111 | helper of the progress results: the overflow branch of the u8 attempt counter is never taken by an advance call |
| SwapProgress.StartSucceeds | referee/src/api/orchestrator.rs:193-247 | a start succeeds exactly when both proofs verify, the webcash is unspent and nothing stops it, and then leaves the swap in flight after one insert push |
| SwapProgress.AdvanceProgresses | referee/src/api/orchestrator.rs:465-638 | an advance of a swap in flight ends it or lowers the measure, fails only if stopped or if the signer objects, and never exceeds the inserts left |
| SwapProgress.TerminalReplyIsStored | referee/src/api/orchestrator.rs:473-520 | the outcome an advance reports is the phase it stored |
| SwapOrchestrator.Orchestrator.RunToCompletion | referee/src/api/orchestrator.rs:254-270 | ends within max(R,1)+2 advance calls and max(R,1) insert pushes; with enough working calls and a signer that accepts it does not fail |
| SwapOrchestrator.Orchestrator.StartSwap | referee/src/api/orchestrator.rs:101-247 | performs the start script up to the point where a call fails |
| SwapOrchestrator.Orchestrator.AdvanceSwap | referee/src/api/orchestrator.rs:433-463 | performs the script of the stored phase; terminal phases answer without effect |
| SwapOrchestrator.Orchestrator.Settle | referee/src/api/orchestrator.rs:473-520 | audit, signature, release, row, sessions and HTLC record in that order, wherever it stops; what each of them is for whom is `SwapFacts.PushesAreAddressed` and its neighbours |
| SwapOrchestrator.Orchestrator.RetryInsert | referee/src/api/orchestrator.rs:522-545 | pushes before it audits and stores the incremented attempt |
| SwapOrchestrator.Orchestrator.Abort | referee/src/api/orchestrator.rs:547-572 | stores the aborted row before it pushes the invalidation |
| SwapOrchestrator.Orchestrator.AdvanceFromAborted | referee/src/api/orchestrator.rs:574-595 | audits and stores the invalidated phase |
| SwapOrchestrator.Orchestrator.AdvanceFromInvalidated | referee/src/api/orchestrator.rs:597-638 | signs and releases before it audits and stores the refund |
| SwapOrchestrator.Orchestrator.CancelSwap | referee/src/api/orchestrator.rs:285-411 | refuses by its guards in order, else performs the cancel script; who gets through is `SwapReplies.CancelGoesThroughExactly` |
| SwapOrchestrator.Orchestrator.Persist | referee/src/api/orchestrator.rs:684-703 | writes the projected row at its time, with the creation time, cancel fields and HTLC record that only the stored row knows |
| SwapOrchestrator.Orchestrator.PartialSign | referee/src/musig2.rs:286-312 | consumes the session first; without one nothing happens, with a malformed key nothing is signed |
| AuditAppend.InterleavedAppends | referee/src/audit/dynamodb.rs:139-223 | any number of interleaved writers with stale queries keep the taken numbers exactly 0..n-1, overwrite nothing, and each told success has its own entry |
| AuditAppend.EachSuccessAddsOne | referee/src/audit/dynamodb.rs:206-223 | the log grows by exactly the successful appends plus the puts that were stored without an answer |
| AuditAppend.RepeatedPutLogsTwice | referee/src/audit/dynamodb.rs:206-223 | a client library that repeats an unanswered put is refused by its own entry, steps on, and one success leaves two entries |
| AuditAppend.DynamoDbAuditLog.Append | referee/src/audit/dynamodb.rs:206-223 | a success is a new entry and its own; giving up means eight entries lie past what the query saw |
| SwapIndex.ListingAgreesWithScan | referee/src/store/mod.rs:117-150 | the merged indexes list each of the party's rows at most once in its role, newest first, min(1000, n) of them, and omit none newer than a listed one |
| SwapListing.WritesKeepOrigins | referee/src/api/orchestrator.rs:101-638 | in every run each write of a row keeps its parties and creation time, as the indexes need |
| SwapListing.ListAfterRun | referee/src/store/mod.rs:117-149 | so after every run of the referee a party's listing is the one the plain scan gives |
| SwapIndex.MissedRowsAreOutnumbered | referee/src/store/mod.rs:117-147 | for each party row the merge misses there is a full page of collected rows at least as new, self-swaps included |
| SwapIndex.InMemoryStore.Upsert | referee/src/store/mod.rs:100-111 | keeps both indexes equal to the rows for histories that fix parties and creation time |
| SwapIndex.InMemoryStore.ListByParty | referee/src/store/mod.rs:117-150 | returns a listing as the plain scan defines it |
| Ledger.AppliedKeyByKey | crates/storage/src/lib.rs:206-214 | what a committed replace does to each input, each output and every other key |
| FdbStore.FdbStore.ExecReplace | crates/storage/src/fdb_backend.rs:255-327 | commits exactly when keys are distinct, inputs unspent and outputs absent, and then marks and inserts; otherwise changes nothing |
| FdbStore.FdbStore.MarkInputs | crates/storage/src/fdb_backend.rs:281-308 | reading its own writes, accepts exactly distinct unspent inputs, and otherwise names the first that stops it |
| FdbStore.FdbStore.InsertTokens | crates/storage/src/fdb_backend.rs:119-150 | inserts all records or none |
| FdbStore.FdbStore.ExecBurn | crates/storage/src/fdb_backend.rs:329-373 | burns exactly the present unspent token |
| FdbStore.FdbStore.BatchReplace | crates/storage/src/fdb_backend.rs:196-214 | one transaction per operation in order, one result each |
| DynamoStore.AcceptsExactlyCommittable | crates/storage/src/dynamodb_backend.rs:386-449 | on any table a transaction is accepted if and only if the operation is committable one write after the other and every input that is there carries its spent flag |
| DynamoStore.AgreesWithFdb | crates/storage/src/dynamodb_backend.rs:386-449 | on any table DynamoDB reaches FoundationDB's token state if and only if the inputs of a committable operation carry their flags; flagged tables stay flagged |
| DynamoStore.MissingFlagIsRefused | crates/storage/src/dynamodb_backend.rs:392-409 | an item without the spent attribute is unspent to readers and never replaceable |
| DynamoStore.ItemRoundTrip | crates/storage/src/dynamodb_backend.rs:164-215 | helper of the refinement: item encoding and decoding give back the field map |
| DynamoStore.DynamoStore.ExecReplace | crates/storage/src/dynamodb_backend.rs:386-449 | builds the transaction item by item and commits it whole or not at all |
| RedisStore.RedisStore.EvalReplace | crates/storage/src/redis_backend.rs:27-55 | the script's loops compute the script function: checks, marks, then outputs without rollback |
| RedisStore.AgreesExactlyWhenFaithful | crates/storage/src/redis_backend.rs:27-55 | for every request, reply and ledger agree with FoundationDB if and only if inputs are not ready; or nothing conflicts, no input repeats and the outputs are aligned; or there are no inputs and the first output is taken |
| RedisStore.LockedAfterPlainDisagrees | crates/storage/src/redis_backend.rs:243-284 | an output with fewer fields before one with more: the request is committable and the script does something else |
| RedisStore.DistinctKeysAgree | crates/storage/src/redis_backend.rs:27-55 | with aligned outputs, distinct keys and absent outputs the script agrees with FoundationDB |
| RedisStore.LayoutRightExactlyAligned | crates/storage/src/redis_backend.rs:243-284 | the script reads every output's own fields if and only if all outputs but the last have the first's field count and the last no more |
| RedisStore.StopLeavesTraces | crates/storage/src/redis_backend.rs:38-52 | a script that stops at an output leaves the ledger unchanged exactly with no inputs and its first output taken |
| LedgerRuns.RecordsAreImmutable | crates/storage/src/fdb_backend.rs:255-373 | over every run records persist, change only by their spent mark, and are frozen once spent |
| LedgerRuns.SpentStaysSpent | crates/storage/src/fdb_backend.rs:282-308 | a spent token is never an input of a committed replace again |
| LedgerRuns.RunBalance | crates/storage/src/fdb_backend.rs:119-373 | over every run, in any part of the key space, unspent plus burned equals initial plus inserted plus the drift of its replaces |
| ReplaceRuns.ConservedThroughoutExactly | crates/server-core/src/lib.rs:610-733 | over every run of issues, burns and handled requests, from any ledger, a namespace's amounts are conserved throughout if and only if each of its committed requests declares what its inputs hold in the store at its turn |
| ReplaceRuns.HonestRunsConserve | crates/server-core/src/lib.rs:594-668 | from an empty ledger, if all committed requests declare what their inputs hold, unspent plus burned is what was issued, in every namespace |
| StorageKeys.TokenKeyInjective | crates/storage/src/lib.rs:345-364 | two token keys are equal exactly when asset, namespace and hash are |
| StorageKeys.StyledKeyInjective | crates/storage/src/lib.rs:320-364 | in the legacy style and in the namespaced one no two tokens of an asset share a key |
| StorageKeys.UnderscoreContractWouldCollide | crates/storage/src/lib.rs:345-350 | a contract named `_` without a fingerprint would share its keys with the unscoped namespace |
| StorageKeys.KeysAsSpelled | crates/storage/src/lib.rs:381-410 | the keys of both styles are spelled as other programs that share the store spell them |
| StorageKeys.ScopedKeyAsSpelled | crates/storage/src/lib.rs:394-404 | so are scoped keys, for every issuer |
| StorageKeys.KindsAreApart | crates/storage/src/lib.rs:345-364 | token, replacement and burn keys never coincide |
| StorageKeys.HashIsRecovered | crates/storage/src/dynamodb_backend.rs:188-200 | the hash comes back from a namespaced key |
| StorageKeys.LegacyHashIsLost | crates/storage/src/dynamodb_backend.rs:195-200 | from a legacy webcash key the whole key comes back instead |
| ReplaceHandler.Replace | crates/server-core/src/lib.rs:610-733 | succeeds exactly when totals balance, namespaces agree, inputs exist, every lock opens and the commit goes through, whatever other requests do in between, and then leaves an audit entry with the hashes and the total under its own key; a refusal leaves ledger and audit log alone |
| ReplaceHandler.CheckedTotalExactly | crates/server-core/src/lib.rs:613-643 | a list of amounts is refused exactly when one of its running totals leaves the i64 range |
| ReplaceHandler.OneNamespace | crates/server-core/src/lib.rs:645-668 | the namespace check passes exactly when all tokens are of one namespace, the unscoped one if there are no inputs |
| ReplaceHandler.RecordNamesItsKey | crates/server-core/src/lib.rs:697-707 | a scoped record names the contract and issuer that its key is made of |
| ReplaceHealth.OutputsAreHealthy | crates/server-core/src/lib.rs:449-512 | after a committed replace health_check answers each output unspent and worth what was declared, or one of a kind |
| ReplaceHealth.InputsAreSpent | crates/server-core/src/lib.rs:449-512 | each input unspent before and spent after, with the same amount |
| ReplaceHealth.OthersAreAsBefore | crates/server-core/src/lib.rs:449-512 | and any other token as before |
| ReplaceHandler.CheckedAtCommit | crates/server-core/src/lib.rs:682-733 | what was checked on the records read holds of the records consumed |
| ReplaceHandler.LockedOutputNeedsItsWitness | crates/asset-rgb/src/lib.rs:469-510 | an output locked at t0 with delay d is consumed at t only with a witness that shows the preimage and names the claim owner, or from min(t0+d, 2^64-1) on one that names the refund owner |
| ReplaceHandler.LockedTokenIsConsumedExactly | crates/asset-rgb/src/lib.rs:469-510 | whatever happened since it was locked, an unspent locked token is consumed by a request with one witness for it if and only if that witness opens the lock, in particular by the refund owner from min(t0+d, 2^64-1) on |
| ReplaceHandler.OutputOwnerIsNotChecked | crates/asset-rgb/src/lib.rs:470-490 | an admitted request stays admitted with any other outputs of the same number, total and namespace |
| ReplaceHandler.DocumentedRuleExactly | crates/asset-rgb/src/htlc/predicate.rs:30-35 | an admitted request pays the path's owner, as documented, if and only if each witness for a locked input names the hash of one of its outputs |
| ReplaceHandler.ClaimOwnerNeedNotBePaid | crates/asset-rgb/src/htlc/state.rs:56-62 | for every locked token and preimage a request that names the claim owner and pays another hash is admitted, commits, and breaks the documented rule |
| ReplaceHandler.DriftIsDeclaredLessStored | crates/server-core/src/lib.rs:610-668 | a committed request drifts by declared less stored in its own namespace and not at all in others |
| ReplaceHandler.ConservesExactlyWhenDeclared | crates/server-core/src/lib.rs:610-668 | a committed request keeps its namespace's unspent total if and only if it declares what its inputs hold |
| ReplaceHandler.WireAmountsAreTrusted | crates/server-core/src/lib.rs:626-733 | for any spendable unlocked token any amount can be declared, and is what the output holds |
| ReplaceHandler.KeysArePartitioned | crates/storage/src/lib.rs:345-364 | a key counts in the books of its own namespace only |
| Htlc.AcceptsDocumentedExactly | crates/asset-rgb/src/htlc/predicate.rs:98-138 | the predicate accepts exactly the documented rule less witnesses spoiled by their preimage |
| Htlc.AcceptsOnlyDocumented | crates/asset-rgb/src/htlc/predicate.rs:98-138 | helper of the lock results: a verdict satisfies the path it names |
| Htlc.RefundWithPreimageIsRefused | crates/asset-rgb/src/htlc/predicate.rs:122-124 | the input for which the documented rule fails: the refund owner showing the right preimage is refused at any time after the deadline |
| Htlc.AcceptanceLasts | crates/asset-rgb/src/htlc/predicate.rs:98-138 | helper: an accepted witness stays accepted with the same verdict later |
| Htlc.StampedLockOpens | crates/asset-rgb/src/htlc/state.rs:116-123 | a stamped lock opens exactly to the hex preimage with the claim owner, or, from the saturated deadline on and without the preimage, to the refund owner |
| Htlc.WaitIsExact | crates/asset-rgb/src/htlc/predicate.rs:98-138 | a refund that comes too early is told exactly the time that is left |
| Htlc.RefusedFor | crates/asset-rgb/src/htlc/predicate.rs:98-138 | helper of the lock results: each refusal is given exactly for its reason |
| Htlc.HexDecodes | crates/asset-rgb/src/htlc/predicate.rs:98-110 | a preimage that decodes is, in either case, the hex form of some bytes |
| Htlc.EncodedIsHex | crates/asset-rgb/src/htlc/predicate.rs:98-110 | and every such form decodes |
| Htlc.WitnessIsFirst | crates/asset-rgb/src/lib.rs:470-490 | the witness that counts is the first entry for the input |
| Htlc.LockIsLast | crates/asset-rgb/src/lib.rs:492-509 | the lock that counts is the last entry for the output |
| Htlc.ValidateReplaceRequest | crates/asset-rgb/src/lib.rs:470-490 | accepts exactly when every locked input is opened by its first witness, else reports the first that is not |
| Htlc.AugmentOutputRecords | crates/asset-rgb/src/lib.rs:492-509 | stamps each output with its last lock entry, or refuses an entry out of range |
| RedisFdbCache.ReachableKeepsInv | crates/storage/src/redis_fdb_backend.rs:59-119 | under any interleaving of store commands, lost writes and evictions every cached record is part of its durable record and spent only if that is |
| RedisFdbCache.AnswerIsDurableExactly | crates/storage/src/redis_fdb_backend.rs:69-86 | for every flavor, the answer for a stored token is its durable record, spent mark aside, if and only if it does not come from a cached hash with at most the amount while the record has further fields |
| RedisFdbCache.AnswersAreDurable | crates/storage/src/redis_fdb_backend.rs:69-86 | so for the scoped flavors every answer is the durable record but for a late spent mark |
| RedisFdbCache.MarkIsLateExactly | crates/storage/src/redis_fdb_backend.rs:69-95 | in any lookup, a durably spent token is answered unspent if and only if the answers come from the cache and its hash lacks the mark |
| RedisFdbCache.LateMarkExactly | crates/storage/src/redis_fdb_backend.rs:97-115 | a durably spent token can still be answered unspent in some continuation if and only if the flavor decodes from the amount alone or a copy from before the spend is cached or on its way |
| RedisFdbCache.LateSpentMark | crates/storage/src/redis_fdb_backend.rs:97-119 | a token cached and then burned is durably spent and answered unspent |
| RedisFdbCache.HealthAnswersAreDurable | crates/storage/src/redis_fdb_backend.rs:69-95 | helper of the health_check result: the amount field of an answer is the durable one, for half-written records too |
| RedisFdbCache.VerdictsAreDurable | crates/asset-rgb/src/lib.rs:134-163 | the lock read through the cache is the durable one |
| CompositeReplace.Replace | crates/server-core/src/lib.rs:610-733 | over the composite store a replace reads its inputs through the cache and still gives the verdict and commit it gives over FoundationDB alone |
| RedisFdbCache.HalfWrittenWebcashIsServed | crates/storage/src/redis_backend.rs:132-178 | between its two commands a webcash record is served with its amount only, an RGB record is not |
| RedisFdbStore.RedisFdbStore.GetTokens | crates/storage/src/redis_fdb_backend.rs:69-86 | answers from Redis if all decode, else from FoundationDB, and then mirrors what it found; warming keeps the cache sound however it is cut off |
| RedisFdbStore.RedisFdbStore.InsertTokens | crates/storage/src/redis_fdb_backend.rs:59-67 | the durable insert decides; the mirror write keeps the cache sound |
| RedisFdbStore.RedisFdbStore.BatchReplace | crates/storage/src/redis_fdb_backend.rs:97-115 | the durable batch decides; outputs of committed operations are mirrored soundly even if later operations spent them |
| RedisFdbStore.RedisFdbStore.Mirror | crates/storage/src/redis_backend.rs:132-178 | the two pipelines keep the cache sound wherever they stop, and leave each hash as it was if it had an amount, else with the first record's amount and, if both get through, all its fields |
| RedisFdbStore.WarmReadIsServed | crates/storage/src/redis_fdb_backend.rs:69-95 | once a read that found nothing in Redis has warmed it undisturbed, the same read is answered from Redis, as from the ledger |
| HealthCheck.GroupedLookups | crates/server-core/src/lib.rs:449-512 | over the composite store, whatever its cache holds and for any group order and repetition, position i holds the spent flag and amount FoundationDB has for token i |
| Batcher.BatcherLoop | crates/server/src/actors/batcher.rs:68-104 | one reply per request; replies and ledger are those of one request at a time in arrival order |
| Batcher.BatchesCompose | crates/server/src/actors/batcher.rs:68-104 | where the queue is cut into batches makes no difference |
| BatcherLedger.ScriptAgreesExactly | crates/server/src/db/redis.rs:24-51 | the webcash script is the all-or-nothing replace if and only if inputs are not ready; or nothing conflicts and no input repeats; or there are no inputs and the first output is taken |
| BatcherLedger.DoneIsDone | crates/server/src/db/redis.rs:24-51 | a request answered done has spent its unspent inputs and stored its outputs, unspent and worth what was asked for |
| BatcherLedger.AnsweredIsKept | crates/server/src/actors/batcher.rs:68-104 | however the queue was cut, those outputs stay in the ledger with their amounts, and those inputs stay spent |
| BatcherLedger.SpentOnce | crates/server/src/actors/batcher.rs:68-104 | no two requests answered done spent the same token |
| Batcher.LegacyRedisStore.BatchReplace | crates/server/src/db/redis.rs:219-281 | the pipeline runs its scripts in order with one reply each |
| Sha256Spec.PaddingIsMinimal | crates/server/src/compute/wgpu_compute.rs:260-287 | the zero bits of the padding are the smallest solution of section 5.1.1 of FIPS 180-4 |
| Sha256Constants.PaddingIsStandard | crates/server/src/compute/wgpu_compute.rs:260-287 | the padded message is the message, a one bit, zero bits, and the bit length in its last eight bytes, in whole blocks |
| Sha256Constants.DigestBytesAreWords | crates/server/src/compute/wgpu_compute.rs:232-245 | the digest bytes are the eight words of the hash value, each big end first |
| Sha256Constants.ConstantsAreRoots | crates/server/src/compute/wgpu_compute.rs:354-395 | all 64 round constants and the eight initial words are the first 32 fraction bits of the cube and square roots of primes |
| Sha256Wgpu.HostPaddingIsPad | crates/server/src/compute/wgpu_compute.rs:260-287 | the host's padded bytes are the padded message of the standard |
| Sha256Wgpu.PackedInputsAreFound | crates/server/src/compute/wgpu_compute.rs:257-304 | offset and block count of each input locate exactly its padded blocks |
| Sha256Wgpu.RollingStep | crates/server/src/compute/wgpu_compute.rs:425-436 | one update of the 16-word array keeps slot t mod 16 at schedule word t |
| Sha256Wgpu.CompressBlock | crates/server/src/compute/wgpu_compute.rs:409-451 | one iteration of the kernel's block loop is the compression of section 6.2.2 with the 64-word schedule |
| Sha256Wgpu.WgpuBackend.Dispatch | crates/server/src/compute/wgpu_compute.rs:397-456 | whatever order the threads run in, slot i of the output holds the digest of input i |
| Sha256Wgpu.WgpuBackend.GpuSha256Batch | crates/server/src/compute/wgpu_compute.rs:154-251 | chunked dispatch equals mapping SHA-256 over the batch, for every batch whose chunks fit the buffer |
| Sha256Wgpu.ShortInputsFit | crates/server/src/compute/wgpu_compute.rs:14-16 | batches of inputs of at most 247 bytes always fit |
| Sha256Cuda.TableCaIsChoice | crates/server/src/compute/cuda.rs:23-27 | helper of the kernel result: the lop3 table 0xCA is the choice function |
| Sha256Cuda.TableE8IsMajority | crates/server/src/compute/cuda.rs:29-33 | helper of the kernel result: the lop3 table 0xE8 is the majority function |
| Sha256Cuda.DeviceBlocksAreRight | crates/server/src/compute/cuda.rs:74-75 | helper of the kernel result: the 32-bit block count is right if and only if the length is below 2^32 - 72 |
| Sha256Cuda.LoadPaddedWord | crates/server/src/compute/cuda.rs:81-99 | padding byte by byte loads the word the host would have packed |
| Sha256Cuda.CudaThread | crates/server/src/compute/cuda.rs:56-130 | one thread computes the digest of its bytes |
| Sha256Cuda.CudaSha256Batch | crates/server/src/compute/cuda.rs:178-229 | the CUDA backend returns the digests the wgpu backend returns, for every batch whose offsets, block counts and output indices fit 32 bits |
| ProofOfWork.LeadingZeroBitsOfNumber | crates/server/src/compute/mod.rs:94-99 | the byte-wise count is the number of leading zero bits of the whole number |
| ProofOfWork.CountLeadingZeros | crates/server/src/compute/cuda.rs:133-149 | the kernel's word loop counts the leading zero bits of the whole number |
| ProofOfWork.CountsAgree | crates/server/src/compute/cuda.rs:133-149 | word-wise and byte-wise counts agree on every digest, all-zero ones included |
| ProofOfWork.DifficultyIsThreshold | crates/server/src/compute/wgpu_compute.rs:333-347 | enough leading zeros means exactly a number below 2^(bits - difficulty) |
| Amount.DisplayRoundTrips | crates/asset-core/src/amount.rs:72-83 | printing with eight decimals and parsing back is the identity exactly on amounts other than the smallest i64 |
| Amount.WatsToStringRoundTrips | crates/server-core/src/lib.rs:1396-1407 | so is printing without trailing zeros |
| Amount.ParsesExactly | crates/asset-core/src/amount.rs:144-177 | which strings parse and to what, over all strings: besides the grammar, a minus before everything, one more sign before the whole part, one after the point, and an empty fraction |
| Amount.ParsesExactlyWhatFits | crates/asset-core/src/amount.rs:144-177 | a grammar string parses exactly with at most eight fraction digits and a value within i64, to that value |
| Amount.DisplayShape | crates/asset-core/src/amount.rs:72-83 | a printed amount is a minus if negative, a whole part without needless zeros and exactly eight decimals, of its value |
| Amount.WatsToStringShape | crates/server-core/src/lib.rs:1396-1407 | the short form has no point for whole amounts and never ends in a zero decimal |
| WireTokens.ParsedIssuerIsLowerHex | crates/asset-rgb/src/token.rs:270-354 | in whatever case it was written, a parsed fingerprint is forty lower-case hex digits |
| WireTokens.PrintedForms | crates/asset-rgb/src/token.rs:98-228 | tokens of the three flavors are written as their documentation spells them |
| WireTokens.RoundTripsExactlyWellFormed | crates/asset-rgb/src/token.rs:268-354 | printing then parsing gives the token back for well-formed tokens of all three flavors and for no others |
| WireTokens.ParsedIsWellFormed | crates/asset-webcash/src/token.rs:127-162 | every parsed token is well formed, of the flavor and kind that was asked for |
| WireTokens.PrintIsCanonical | crates/asset-rgb/src/token.rs:268-354 | whatever string a token was parsed from, its printed form parses to the same token |
| WireTokens.FlavorsAreApart | crates/asset-webcash/src/token.rs:93-115 | no string is a token of two flavors or kinds |
| WireTokens.AmountSpanTakesAll | crates/proto/src/parsers.rs:11-13 | a grammar amount before a colon is recognised whole |
| WireTokens.NormalizedKeyIsSameToken | crates/server-core/src/lib.rs:1412-1431 | the normalised health_check key parses to the token asked about |
| Effects.BindRuns | crates/server/src/effects/mod.rs:65-104 | for every program whose paths all end, bounded together or not, running a bind is running the first program, then the second on its result and store; failures stop both alike |
| Effects.Associativity | crates/server/src/effects/mod.rs:65-104 | grouping of binds does not change results or stores |
| Effects.LeftIdentity | crates/server/src/effects/mod.rs:65-72 | binding a pure value is applying the continuation |
| Effects.RightIdentity | crates/server/src/effects/mod.rs:65-104 | binding to pure changes nothing |
| Effects.Interpret | crates/server/src/effects/interpreter.rs:6-45 | the trampoline ends on every program whose paths all end, and computes its run |
| Effects.QueriesCallOnce | crates/server/src/effects/mod.rs:108-137 | the reading constructors make exactly their one store call and hand back its answer |
| Effects.WritesCallOnce | crates/server/src/effects/mod.rs:115-152 | the writing constructors make exactly their one store call |

## Left out

- HTTP, JSON, configuration, connection pools, GPU device set-up and buffers: plumbing around the modelled code.
- Ed25519, PGP, Groth16 and MuSig2 mathematics: verdicts and signatures are parameters; a partial signature is named by the transaction hash it covers.
- The parameters of the RGB calls that mint the swap and HTLC records: that they are made, and when, is modelled.
- SHA-256 outside the compute modules: an uninterpreted function.
- SwapRuns.NeverBothSignatures: calls of one swap must be serialised, as SwapRuns.TerminalRowsNeverChange needs too; with overlapping calls of a swap exclusivity is false (SwapFromNothing.OverlapFromNothing).
- Retrying an interrupted start: `advance_swap` answers without effect in the phases a start owns, so a start that was cut off is not resumed at all.
- The FoundationDB and Redis audit logs and swap stores: the DynamoDB append loop and the in-memory store are modelled.
- FoundationDB's re-execution of a transaction whose commit result is unknown: a transaction counts as executed once.
- Redis and DynamoDB as authority for `insert_tokens`: runs are over the FoundationDB store; Redis inserts are modelled as cache writes.
- DynamoDB's 100-item limit, pipeline transport errors, script eviction.
- `batch_burn` over several operations: one burn per step; the batch stops at its first error and is not atomic.
- `parse_and_validate_replace` and the canonical encoding and signature of audit entries: easy members beside the modelled ones.
- Mining state, difficulty, mining and issue handlers, the legacy miner, macros, issuer registry, nonce cache, vouchers (same grammar as RGB20).
- Sha256Cuda.CudaSha256Batch: `__funnelshift_r` of a word with itself is taken as rotation, and threads run one after the other.
- Sha256Wgpu.CompressBlock: index arithmetic is on natural numbers, which the buffer size keeps below 2^32; the kernel's rotation by a variable amount is written out for each constant.
- ProofOfWork.CountsAgree: words and bytes are numbers here and bit vectors in the SHA-256 modules.
- RedisStore.LayoutRightExactlyAligned: an output's fields are given in the order they are emitted; that the order is alphabetical plays no part.
- Amount.ParsesExactly: negating the smallest i64 wraps as in a release build.
- Effects.Interpret: programs with a path that never ends are outside, as the interpreter does not return on them.
- Locks and witnesses of the webcash and voucher flavors: their hooks do nothing, so they are the requests without either.
- RedisFdbCache.AnswersAreDurable: a spent mark may be missing in a cached answer, as in the code; spent flags that matter are read from FoundationDB.
- Batcher.BatcherLoop: the requests of a batch share one clock reading, so sequential execution is compared with the same readings.
