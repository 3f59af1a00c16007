# FoundationDB transaction retry executor of the RADOS Gateway (rgw_fdb)

This project models `run`, the transaction executor that `src/rgw/rgw_fdb.cc`
offers its callers, together with its helpers `waitError`, `checkError` and
`createTransaction`, and the declarations of `src/rgw/rgw_fdb.h` it relies
on (`RunResult`, `MAX_RETEY`, `MAX_TIMEOUT` and `run`'s default arguments).

`run` creates a transaction and sets its retry-limit and timeout options.
It then loops:
- it runs the caller's operation on the transaction;
- only if the operation returned 0, it commits and waits for the commit;
- any error from either is handed to the store's `on_error`, whose verdict
  decides the next step. A verdict of 0 means the transaction was reset, and
  the operation runs again on the same handle. A non-zero verdict destroys the
  transaction and is returned.

A commit without error destroys the transaction and returns 0.

The FoundationDB C client is modelled as a scripted oracle:
- Module `FdbClient` holds it. Class `Client` hands out the answers of a
  `Script` fixed in advance.
- The client records every call in its `log`: create, set-option, the
  operation, commit, `on_error`, future destroy and transaction destroy.
- It also tracks the live transactions, the pending futures, and how many
  `on_error` calls each transaction has seen. That count is the attempt
  number; commit, `on_error` and the caller's operation answer by attempt.

Module `RgwFdb` has two layers:
- Reference functions that give, from the script alone, the calls each step
  makes and the code it returns: `CreateTrace`, `AttemptTrace`, `LoopTrace`
  and `RunTrace`. `LoopEnd` gives the attempt count and the next free future
  id the loop ends with; `Issued` and `Retries` count the calls of a log
  that issue a future and that close an attempt.
- The imperative methods `CreateTransaction`, `Attempt`, `RetryLoop` and
  `Run`. Each is proved to make exactly those calls, in that order, on the
  client, and to leave the client's counters where those functions say.

Module `RgwFdbProperties` proves what the traces promise about order,
error propagation, the result code, the life of transactions and futures,
and termination.

One path of `run` does not destroy its transaction: `createTransaction`
created it, and setting one of its options then failed
(`src/rgw/rgw_fdb.cc:78-86`). `run` then returns the error at once
(`src/rgw/rgw_fdb.cc:99-103`). Every exit after a successful set-up destroys
the transaction first (`src/rgw/rgw_fdb.cc:120`, `130`). The model keeps
this:
- the `live` postcondition of `RgwFdb.Run` keeps the transaction live in that
  case;
- `RgwFdbProperties.RunSetupFailure` shows that no destroy call is made.

## Model

| member | source | states |
|---|---|---|
| FdbHeader.NewRunResult | src/rgw/rgw_fdb.h:17-23 | the result's code is exactly the code given, and its message is the store's message for that same code |
| FdbHeader.DefaultLimits | src/rgw/rgw_fdb.h:10-11 | the default retry limit is 2^64 - 1 and the default timeout is 5000 ms |
| RgwFdb.WaitError | src/rgw/rgw_fdb.cc:11-18 | a non-zero blocking error is returned; otherwise the future's own error is returned; the result is 0 exactly when both are 0 |
| RgwFdb.CheckError | src/rgw/rgw_fdb.cc:20-22 | the code comes back unchanged, whatever the context label |
| RgwFdb.SetupCalls | src/rgw/rgw_fdb.cc:73-83 | no contract: the three set-up calls, create then the retry-limit and timeout options, with the store's answers; CreateTrace takes its prefixes |
| RgwFdb.CreateTrace | src/rgw/rgw_fdb.cc:71-89 | the calls are a prefix of create, set retry limit to `limit`, set timeout to `timeout`, in that order; all but the last succeeded; the code is the last call's error; it is 0 exactly when all three calls succeeded |
| RgwFdb.AttemptTrace | src/rgw/rgw_fdb.cc:105-124 | no contract: the reference definition of one pass, which Attempt is proved to follow; RgwFdbProperties proves its calls in place (AttemptInPlace), how it ends (AttemptEnding) and its future ids (AttemptFutures) |
| RgwFdb.LoopTrace | src/rgw/rgw_fdb.cc:105-131 | no contract: the reference definition of the `while(1)` loop and its two exits, which RetryLoop is proved to follow; RgwFdbProperties proves its protocol (LoopFollowsProtocol), its code (LoopEnding), its futures (LoopFutures) and that it does not depend on the unfolding bound (LoopDeterministic); FinalBoundsLoop bounds its unfolding |
| RgwFdb.LoopEnd | src/rgw/rgw_fdb.cc:105-131 | no contract: the attempt count and next free future id where the loop ends; LoopEndCounts reads them off the loop's calls |
| RgwFdb.RunTrace | src/rgw/rgw_fdb.cc:91-132 | no contract: the reference definition of all of `run`, set-up then the loop, which Run is proved to follow; RgwFdbProperties proves its result code (RunResultCode), the life of its transaction (RunHandleLifecycle, RunSetupFailure), its commits (RunCommitsOnlyAfterSuccess), its futures (RunDestroysFuturesOnce) and its termination (RunTerminates, RetryLimitBoundsRun) |
| RgwFdb.CreateTransaction | src/rgw/rgw_fdb.cc:71-89 | appends exactly CreateTrace's calls to the client's log and returns its code; the transaction is live, at attempt 0, exactly when the create call succeeded; no other transaction's attempt count changes and no future is issued |
| RgwFdb.Attempt | src/rgw/rgw_fdb.cc:106-124 | one pass appends exactly the calls of AttemptTrace for the current attempt; the error it hands on is the operation's, or, when the operation returned 0, the commit future's as `waitError` reads it; the pass stops on success or on a non-zero verdict and retries otherwise; one future id is used for the commit and one for `on_error`, each only when that call is made; the transaction's attempt count goes up by one exactly on an error, and no other transaction's count changes |
| RgwFdb.RetryLoop | src/rgw/rgw_fdb.cc:105-131 | the loop's calls and code are those of LoopTrace from attempt 0, and the transaction's attempt count and the next free future id end where LoopEnd says; the transaction is no longer live afterwards; no future is left pending; no other transaction's attempt count changes |
| RgwFdb.Run | src/rgw/rgw_fdb.cc:91-132 | with the retry limit and timeout defaulting to `MAX_RETEY` and `MAX_TIMEOUT` as declared in rgw_fdb.h: the calls and code are those of RunTrace; the result carries that code and the store's message for it; exactly one transaction is created; the transaction stays live only when create succeeded and an option call failed; no future is left pending; one future id is used per commit and `on_error` call made; the new transaction's attempt count is the number of `on_error` calls made; no other transaction's attempt count changes |
| RgwFdb.AttemptCounts | src/rgw/rgw_fdb.cc:106-124 | one pass issues a future for the commit exactly when the operation returned 0, and one for `on_error` exactly when there was an error; only `on_error` closes the attempt; a retry goes on from the next free id after them |
| RgwFdb.LoopEndCounts | src/rgw/rgw_fdb.cc:105-131 | where the loop leaves the attempt count is the starting attempt plus the number of `on_error` calls it made; the next free future id grows by one per commit and `on_error` call |
| RgwFdb.LoopLeavesCounts | src/rgw/rgw_fdb.cc:105-131 | the attempt count and next free id that RetryLoop promises are the counts of `on_error` calls and of future-issuing calls in its log |
| RgwFdb.FinalBoundsLoop | src/rgw/rgw_fdb.cc:105-128 | if attempt `k` ends the loop, the loop from any earlier attempt `j` ends within `k - j + 1` passes |
| FdbClient.Client.DatabaseCreateTransaction | src/rgw/rgw_fdb.cc:73 | a new handle; on success it is live, with attempt count 0; the call is logged |
| FdbClient.Client.TransactionSetOption | src/rgw/rgw_fdb.cc:78 | the store's answer for that option and value; the call is logged with both |
| FdbClient.Client.Invoke | src/rgw/rgw_fdb.cc:106 | the operation's result for the transaction's current attempt; the call is logged |
| FdbClient.Client.TransactionCommit | src/rgw/rgw_fdb.cc:109 | a fresh pending future carrying the store's commit answer for the current attempt |
| FdbClient.Client.TransactionOnError | src/rgw/rgw_fdb.cc:115 | a fresh pending future carrying the store's verdict on that error; the transaction moves to its next attempt |
| FdbClient.Client.FutureDestroy | src/rgw/rgw_fdb.cc:111 | only a pending future, issued and not yet destroyed, may be destroyed; it is then no longer pending; the call is logged |
| FdbClient.Client.TransactionDestroy | src/rgw/rgw_fdb.cc:120 | the transaction is no longer live; the call is logged |
| RgwFdbProperties.AttemptInPlace | src/rgw/rgw_fdb.cc:106-124 | every call of one pass is followed as the protocol requires, whether the pass ends the loop or is followed by another pass on the same transaction |
| RgwFdbProperties.AttemptEnding | src/rgw/rgw_fdb.cc:114-127 | a final pass followed by the destroy ends as the loop does: code 0 exactly after a successful operation and commit, otherwise the non-zero verdict of `on_error` |
| RgwFdbProperties.AttemptFutures | src/rgw/rgw_fdb.cc:109-117 | a pass issues futures from the next free id on and destroys each of them only by the call right after the one that issued it |
| RgwFdbProperties.LoopFollowsProtocol | src/rgw/rgw_fdb.cc:105-130 | the loop starts with the operation and ends with destroying the transaction; every call before that works on the transaction; every call is followed as the protocol requires; a commit comes only right after the operation returned 0 |
| RgwFdbProperties.LoopEnding | src/rgw/rgw_fdb.cc:105-131 | the loop returns 0 exactly when its last pass ran the operation and committed without error; otherwise it returns the non-zero verdict of the last `on_error` call, which got a non-zero error |
| RgwFdbProperties.LoopFutures | src/rgw/rgw_fdb.cc:109-117 | futures issued in the loop get ids from its first free id on; each one is destroyed only right after the call that issued it |
| RgwFdbProperties.LoopDeterministic | src/rgw/rgw_fdb.cc:105-128 | the loop's calls and code do not depend on the bound used to unfold it |
| RgwFdbProperties.RunSetupFailure | src/rgw/rgw_fdb.cc:98-103 | when set-up fails, `run` returns set-up's error and makes only create and set-option calls: no operation, commit, `on_error` or destroy, even when the transaction had been created |
| RgwFdbProperties.RunHandleLifecycle | src/rgw/rgw_fdb.cc:98-131 | after a successful set-up, the first call is the successful create and the last is destroying that transaction; there is no other create or destroy; every call after set-up is in place on that transaction; a verdict of 0 is followed by the operation again on the same transaction |
| RgwFdbProperties.RunCommitsOnlyAfterSuccess | src/rgw/rgw_fdb.cc:106-112 | every commit comes right after the operation returned 0 on the same transaction |
| RgwFdbProperties.RunResultCode | src/rgw/rgw_fdb.cc:98-131 | `run` returns 0 exactly when set-up succeeded and the last pass ran the operation and committed without error; when set-up fails it returns set-up's error; otherwise it returns the non-zero verdict of the last `on_error` call, which got a non-zero error, and then only that future and the transaction are destroyed |
| RgwFdbProperties.RunDestroysFuturesOnce | src/rgw/rgw_fdb.cc:109-117 | each commit or `on_error` future is destroyed by the very next call and by no other call |
| RgwFdbProperties.RunTerminates | src/rgw/rgw_fdb.cc:105-128 | if set-up fails, or if the script makes some attempt `k` end the loop, `run` ends within `k + 1` passes, and every complete unfolding gives the same calls and code |
| RgwFdbProperties.RetryLimitBoundsRun | src/rgw/rgw_fdb.cc:78 | if the store gives up on every error once `limit` retries have been made, `run` ends within `limit + 1` passes |

## Left out

- `openDatabase` and `runNetwork` (network set-up, the network thread, cluster and database bootstrap) are I/O and concurrency, and are not part of this model.
- What FoundationDB does inside create, set-option, commit and `on_error` is not modelled. The store's answers are the functions of a `Script`: conflict detection, the retry-limit and timeout options' effect, and wall-clock time are not modelled.
- `fdb_future_block_until_ready` and `fdb_future_get_error` are not recorded as calls. `WaitError` reads both of their answers from the future's reply.
- The text `fdb_get_error` returns is foreign. It is the parameter `getError` of the script.
- The caller's `func` and its `args` and `result` payloads become the function `op` from the attempt number to the code `func` returns. Side effects of `func` are not modelled.
- Memory addresses are not modelled. A transaction handle is the number of the create call that made it; a future is identified by a counter.
- The key/value primitives and the flat and hierarchical listings built on `run` are not part of this model: their code is not among the modelled files.
- RgwFdb.RetryLoop: requires that the script makes some attempt end the loop. The source loop has no bound of its own and runs forever against a store that always answers "retry"; that behaviour is not modelled.
- RgwFdb.Run: requires, as RetryLoop does, that some attempt ends the loop whenever set-up succeeds. RgwFdbProperties.RetryLimitBoundsRun gives a sufficient condition in terms of the retry limit.
