# Liquidation bot cycle — a Dafny model

The bot (`index.ts`) runs once per invocation. It loads a persisted state
record, or creates one. It queries one page of liquidatable positions and
advances its page cursor. It picks one candidate round-robin by its attempt
counter and enforces a 30-second cooldown per candidate. Then it either
broadcasts a new `private_liquidate` transaction or looks up the transaction
still pending from an earlier run. It classifies the reply, which can set or
clear the pending hash, and writes the record back.

The model has three files:

- `Wrappers.dfy`: `Option`.
- `Liquidator.dfy`: the state record (`Snapshot`), the candidates, the query
  and transaction replies, and the pure expressions of the cycle
  (`NextPage`, `SelectIndex`, `InCooldown`, `Pending`, `StatusDue`,
  `Reconcile`). It also holds the specification function of one cycle
  (`Cycle`) and of one invocation (`Invoke`, `Run`). The class `State` is the
  parsed state object that `main()` changes in place. Its method `Step` does
  the cycle imperatively and is proved equal to `Cycle`. `RunOnce` is the
  whole of `main()`: create the file if it is missing, load it, step, and
  give what the file holds afterwards.
- `Properties.dfy`: the lemmas about the cycle and about runs of many
  invocations.

The foreign calls are parameters of the step, so the model is deterministic:

- The contract query's reply (`Answered(totalPages, data)`), or the query
  throwing (`QueryThrew`).
- The measured query duration.
- The reply to the transaction call the cycle makes: a response, `null`
  (`NotFound`), or an exception (`CallThrew`).
- The clock value `now`, in milliseconds.

The call itself is a result: `Lookup(hash)` or `Broadcast(accountId, routeIndex)`.

JavaScript truthiness is modelled where the code relies on it:

- A stored `start` of 0 makes the report measure from `now`.
- An attempt time of 0 counts as no attempt.
- An empty `txHash` counts as nothing pending, so the cycle broadcasts.
- A `queryLength` of 0 restarts the average.

`index.ts:105-113` holds an unresolved merge conflict, so the file as it
stands does not parse. Either resolution gives the same predicate, because
the literals 7_200_000, 1_000 and 15_000 equal the constants at
index.ts:16-19. `StatusDue` models that predicate.

What the code does not do:

- There is no blacklist, no query-error counter and no bounded latency
  window.
- There is no audit log and no "contract panicked" or "insufficient funds"
  handling.
- `successfulLiquidations` and `failedLiquidations` are never changed.
- A failed query is not caught. It ends the invocation before the write at
  line 207. On a first run the file keeps the initial record written at
  line 94.
- A cooldown skip returns before line 207, so it throws away the cursor
  advance of the successful fetch that preceded it (`CooldownGate`: the file
  keeps the loaded record).

One consequence of the code as written is proved as `PendingHashSticks`. A
pending transaction that a lookup reports as failed, with a raw log, keeps
its hash. Every later cycle that reaches the transaction block looks the
same hash up again. As long as each lookup keeps reporting that failure, or
nothing, as it does for a committed transaction, the bot never broadcasts
another liquidation.

## Model

| member | source | states |
|---|---|---|
| Liquidator.NextPage | index.ts:139-140 | the new cursor is below the reported page count and congruent to `page + 1` modulo it; for a cursor inside the page count it is `page + 1`, or 0 after the last page |
| Liquidator.SelectIndex | index.ts:141-142 | the round-robin index `totalAttempts mod |data|` is inside the page; it is the counter itself while the counter is below the page size |
| Liquidator.Chosen | index.ts:141-142 | the candidate `data[totalAttempts % data.length]` that a cycle attempts is an element of the page; `Cycle` uses it |
| Liquidator.InCooldown | index.ts:144 | no contract; the test at line 144: the id has a recorded, non-zero time later than `now` minus 30 000 ms |
| Liquidator.StatusDue | index.ts:106-108 | no contract; the report gate at lines 106-108 (either side of the merge conflict); its properties are `StatusRecurs` and `StatusQuietAfterStartup` |
| Liquidator.ReportStart | index.ts:101 | no contract; `state.start || now`, with a stored 0 falling back to `now` |
| Liquidator.NextQueryLength | index.ts:138 | no contract; the running average of line 138, restarting from the measured value when the stored one is absent or 0 |
| Liquidator.Pending | index.ts:154 | no contract; the truthiness test on `state.txHash`: present and non-empty |
| Liquidator.Contains | index.ts:197-200 | no contract; `includes` on the raw log; `ContainsAt` proves it agrees with occurrence at an index |
| Liquidator.RawLogError | index.ts:197-202 | no contract; the two raw-log tests in order; `SequenceCheckedFirst`, `OutOfGasSecond` and `QuietRawLog` state its cases |
| Liquidator.Reconcile | index.ts:177-202 | no contract; the new `txHash` and the thrown error for each reply; specifies `State.Settle`; `ReplyClassification` states its cases |
| Liquidator.Initial | index.ts:85-93 | no contract; the record created when there is no state file; specifies `State.Create`; `InitialRecord` states its fields |
| Liquidator.AfterFetch | index.ts:137-140 | no contract; the timing, page count and cursor after an answered query; part of `Cycle` |
| Liquidator.AttemptOn | index.ts:147-202 | no contract; stamp, then lookup or increment-and-broadcast, then reconcile; specifies `State.AttemptCandidate` |
| Liquidator.Cycle | index.ts:100-207 | no contract; one cycle on the loaded record, with the two exits that skip line 207; specifies `State.Step`; the lemmas of `LiquidatorProperties` are about it |
| Liquidator.LoadOrCreate | index.ts:84-98 | no contract; the stored record, or the initial one when the file is absent |
| Liquidator.Invoke | index.ts:84-207 | no contract; what the file holds after one invocation: the line-207 record, or else what was loaded or created; specifies `RunOnce` |
| Liquidator.Run | index.ts:83-208 | no contract; the file after consecutive invocations; the run lemmas are about it |
| Liquidator.State.Create | index.ts:85-93 | a fresh record has zero counters, one page, cursor 0, no start, no pending hash and no attempts, and satisfies the cursor invariant |
| Liquidator.State.Load | index.ts:97-98 | the object holds exactly the stored record |
| Liquidator.State.Settle | index.ts:177-202 | the reply only changes `txHash`, as `Reconcile` says, and the thrown error is `Reconcile`'s |
| Liquidator.State.AttemptCandidate | index.ts:147-202 | stamping the attempt time, then broadcast or lookup, then settling, gives exactly `AttemptOn` of the old record |
| Liquidator.State.Step | index.ts:100-207 | the object's new state, the record written (or none), the page asked for, the call made, the error caught and the report flag are those of `Cycle` on the old state |
| Liquidator.RunOnce | index.ts:84-207 | the file after `main()` is `Invoke` of what was stored; the call made and the error are those of `Cycle` on the loaded or created record |
| LiquidatorProperties.InitialRecord | index.ts:85-93 | the created record has every counter 0, `totalPages = 1`, `page = 0`, no start, no pending hash, no attempts, and is valid |
| LiquidatorProperties.StartSetOnce | index.ts:101-104 | `start` becomes `now` when it was undefined and is otherwise never overwritten |
| LiquidatorProperties.FirstInvocation | index.ts:84-108 | a first invocation with an answered query always writes its record, stamps `start = now` and logs the status report |
| LiquidatorProperties.StatusRecurs | index.ts:105-114 | after the first two hours the report gate repeats with a period of two hours |
| LiquidatorProperties.StatusQuietAfterStartup | index.ts:105-114 | from 15 seconds up to two hours of running no status report is logged |
| LiquidatorProperties.CursorAdvances | index.ts:139-140 | a written cycle stores the reported page count `T` and `page = (old page + 1) mod T`, so the cursor invariant holds |
| LiquidatorProperties.RunKeepsValid | index.ts:139-140 | over any run of invocations a valid record stays valid |
| LiquidatorProperties.CursorAfterEmptyPages | index.ts:139-141 | after n invocations over empty pages of T pages the cursor is `(page + n) mod T`, and attempts, counters and pending hash are unchanged |
| LiquidatorProperties.CursorAfterWrittenRun | index.ts:139-140 | after n invocations that all write, each answering with T pages, the cursor is `(page + n) mod T` |
| LiquidatorProperties.ScheduleCovers | index.ts:142 | every index of a page of K candidates is chosen by one of K consecutive attempt counters |
| LiquidatorProperties.ScheduleDistinct | index.ts:142 | no two of K consecutive attempt counters choose the same index |
| LiquidatorProperties.RoundRobinExactlyOnce | index.ts:142 | K consecutive attempt counters choose every one of K candidates exactly once |
| LiquidatorProperties.EmptyPageMakesNoAttempt | index.ts:141-207 | an empty page makes no call and raises no error; the record is written with attempts, pending hash and counters unchanged |
| LiquidatorProperties.CooldownGate | index.ts:144-150 | a cycle with a chosen candidate writes nothing exactly when that candidate is in cooldown, and then the file keeps the loaded record; otherwise the candidate's time becomes `now` and every other entry of `attempts` is unchanged |
| LiquidatorProperties.CooldownWindow | index.ts:144 | a non-zero attempt time t blocks the candidate at t + 29 s and not at t + 31 s |
| LiquidatorProperties.CooldownAcrossCycles | index.ts:144-150 | after an attempt at t, a later cycle choosing the same candidate is skipped at t + 29 s and runs at t + 31 s |
| LiquidatorProperties.SubmitOrReconcile | index.ts:154-166 | with nothing pending the cycle broadcasts with `route_index` equal to the incremented counter; with a pending hash it looks that hash up and keeps the counter |
| LiquidatorProperties.AttemptsGrowAtMostOne | index.ts:154-158 | the attempt counter grows by exactly one when the cycle broadcasts and otherwise stays |
| LiquidatorProperties.ReplyClassification | index.ts:177-196 | every reply case: `null` keeps the hash (error logged, record still written); a thrown call keeps the hash with the call-failed error; in the two cases that reach the raw-log tests the error is `RawLogError` of the raw log; success with a log clears it; success without a log, and failure with no or an empty raw log, store the response hash; failure with a raw log keeps the hash |
| LiquidatorProperties.RawLogOnlyRaises | index.ts:197-205 | two replies differing only in their non-empty raw-log text leave the same state and the same write |
| LiquidatorProperties.SequenceCheckedFirst | index.ts:197-202 | a raw log containing "incorrect account sequence" is reported as the sequence error before any out-of-gas check |
| LiquidatorProperties.OutOfGasSecond | index.ts:197-202 | a raw log containing "out of gas" but not "incorrect account sequence" raises the out-of-gas error |
| LiquidatorProperties.QuietRawLog | index.ts:197-202 | a raw log with neither text raises no error |
| LiquidatorProperties.ContainsAt | index.ts:197-202 | the substring test used on raw logs holds exactly when the text occurs at some index |
| LiquidatorProperties.ErrorsStillPersist | index.ts:150-207 | an error caught in the transaction block implies the record is still written, with the page advance and the new attempt time |
| LiquidatorProperties.OutcomeCountersNeverChange | index.ts:83-208 | no run of invocations changes `successfulLiquidations` or `failedLiquidations` |
| LiquidatorProperties.PendingHashSticks | index.ts:189-196 | while every reply is not-found, a thrown call, or a failure with a raw log, a pending hash stays pending and no new liquidation is broadcast |

## Left out

- The chain client is not modelled. That covers its construction, the
  environment-variable check (index.ts:62-81), `queryContract`,
  `tx.broadcast` and `query.getTx`. Their results are parameters of the step.
- The gas limit, fee denomination, sender, contract address, code hash and
  funds of the broadcast are passed to the foreign call and never read by
  the cycle, so the model leaves them out.
- File handling is not modelled: `existsSync`, `readFileSync`,
  `writeFileSync` and JSON. Storing and loading are the identity on the
  record. A corrupt file, which makes `JSON.parse` throw, is not modelled.
  Neither is the insertion order of `attempts` keys in the JSON text, which
  the `delete` at line 148 changes.
- The query duration is measured from the wall clock. It is a parameter,
  and its running average is computed on `real`, without IEEE double
  rounding.
- Log output is not modelled: `getCentralTime`, `logger` and the report
  text. The model keeps only the report gate (`StatusDue`) and which error
  was caught.
- Liquidator.State.Step: requires the reported `total_pages` to be at least 1,
  and so do `Cycle`, `Invoke` and `RunOnce`. With 0, line 140 would store
  `NaN` as the page, which the model does not represent.
- Counters are unbounded integers. JavaScript numbers lose precision above
  2^53, which the model does not capture.
- Scheduling of invocations (`Promise.resolve(main())` once per process
  start) is outside the model. `Run` stands for consecutive invocations.
