# Waterfall ledger: a verified model

The repository bills usage by one rule, the waterfall draw: take an amount from
several sources in priority order, each emptied before the next is touched, all or
nothing. It implements the rule five times over two ledgers, PostgreSQL and
TigerBeetle, inside a small double-entry ledger with sign-up credits, deposits,
withdrawals, transfers and expiring credit grants. This project models those
operations in Dafny and proves what they promise.

## How it is built

One rule. `WaterfallSpec.dfy` defines the draw, says what a draw must achieve without
naming an algorithm, and proves that exactly one vector of shares achieves it. Every
loop and program below is proved equal to it, except the PostgreSQL benchmark, which
does not split amounts and has its own first-fit specification.

TigerBeetle. `TigerBeetle.dfy` writes down the machine: debit and credit counters, the
overdraft flag, balancing transfers that clamp their amount to the debit account's
headroom and the credit account's shortfall (a clamp to zero still posts), and linked
chains that run up to and including their first unlinked transfer and post together or
not at all. `WaterfallChain.dfy` proves that the seven-transfer program computes the
waterfall on that machine, `WaterfallBatch.dfy` extends this to many chains in a call
and to the optimistic path, `WaterfallWorker.dfy`, `BankFunding.dfy` and
`WaterfallSetup.dfy` hold the worker, its client and the set-up as classes and methods,
`TopUpCycle.dfy` follows a worker through any number of calls, `BenchRuns.dfy` all
workers at once, one server call at a time in any order, `BenchCalls.dfy` what each call
sends and achieves among them, `Layout.dfy` and `MetadataIndex.dfy` treat the account
numbering and the metadata store that must agree with it, and `WaterfallTransfers.dfy`
the client-side variant.

PostgreSQL. `Database.dfy` and `Serial.dfy` define the tables and the operations, one at
a time: `Enabled` is an operation's guard and `Apply` its effect, which `Effects.dfy`
writes out column by column and `DrawOrder.dfy` row by row for the draws.
`GrantLife.dfy` and `History.dfy` prove what holds after every sequence of operations.
`Sessions.dfy` is the concurrent system: calls run as transactions with private writes,
row locks held until the end, plain reads of the last committed rows and re-reads under
a lock; any interleaving of steps may happen and a transaction may roll back at any of
them. `SessionSafety.dfy` proves that every interleaving is serial in commit order,
`DrawGuarantees.dfy` and `CallHistories.dfy` what that means for callers,
`DrawDemand.dfy` and `DrawShortfall.dfy` what a draw on a stale read is sure to take,
`SoloCalls.dfy` how a call ends that has the tables to itself, and what a refusal means,
`LockOrder.dfy` and `Deadlock.dfy` when calls cannot block each other for ever,
`DrawDeadlock.dfy` and `CallDeadlock.dfy` when exactly they can, and `DrawRaces.dfy`
gives three runs that show where the code promises less. `PostgresTables.dfy`,
`CashService.dfy` and `CreditService.dfy` are the SQL statements and the services
themselves, as classes that update the tables in place, each method proved against
`Apply`; `GrantBalances.dfy` adds the reported balance. `FirstFitBench.dfy` is the
PostgreSQL benchmark's draw and refill cycle. `Common.dfy`, `Totals.dfy`,
`DrawCycle.dfy` and `Paths.dfy` hold what several of these share.

Money in the PostgreSQL part is counted in units of 10^-12, the scale of its columns;
entries stand in commit order. What a query returns in an order that SQL leaves open is
a parameter, constrained only by the query's own clauses.

## Main results

- `WaterfallChain.ChainComputesWaterfall`: the seven-transfer program computes the draw,
  for all balances and amounts; `WaterfallBatch.BatchSettlesChains` for whole batches,
  `WaterfallBatch.OptimisticRefinesChain` for the optimistic path,
  `WaterfallTransfers.SharesExecute` for the client-side program.
- `BenchRuns.WholeRun`, `BenchRuns.DrawIsWaterfall`, `BenchCalls.NextIsTheChain`,
  `BenchCalls.TryAndChainInRun`: any interleaving of all workers keeps the ledger sound,
  every draw request in it is the waterfall of its moment, and an optimistic draw that
  fails on A goes on to the chain.
- `TopUpCycle.RunFromSetup` and `TopUpCycle.WhoEverPays`: who pays for which call, and
  which sources are ever drawn on.
- `MetadataIndex.LookupAccounts`: the metadata store returns the worker's own sources.
- `FirstFitBench.BenchDb.RunWaterfall`: the PostgreSQL benchmark's cycle.
- `History.ReachableIsAudited`, `History.Conservation`, `History.KeyTakesEffectOnce`:
  what holds after every sequence of operations.
- `SessionSafety.Serializable`: every interleaving of calls is serial in commit order.
- `DrawGuarantees.WaterfallDebitRefinesAtomicStep`, `DrawGuarantees.DrawdownCommit`,
  `CallHistories.TransferRefinesAtomicStep`, `CallHistories.KeyedEffectIsUnique`: what a
  caller gets in any interleaving.
- `DrawDemand.RunShortByAtMost`, `DrawShortfall.WorstCase`: what a Drawdown is sure to
  take, and the least it can take.
- `DrawOrder.DrawdownCommitInOrder`, `DrawOrder.DebitCommitInOrder`: grants empty by
  priority, then expiry, and cash last, in any interleaving.
- `SoloCalls.TransferAlone`, `SoloCalls.DebitAlone`, `SoloCalls.DrawdownAlone`,
  `SoloCalls.RefusedWithGrounds`: when a call completes, and what a refusal means.
- `Deadlock.NoDeadlock`, `Deadlock.EveryCallFinishes`, `CallDeadlock.DeadlockExactly`,
  `DrawDeadlock.DrawdownsBlockExactly`: calls finish, except exactly where grants tie.
- `CashService.LedgerService.Transfer`, `CreditService.GrantsService.WaterfallDebit`,
  `CreditService.GrantsService.Drawdown`: the imperative services do one such operation.

## Where the code differs from its comments and documents

- tigerbeetle-setup/bench/tb.go:46-48 says that transfer 6 rejects an underfunded draw.
  SETUP carries no constraint (tb.go:97), so transfer 6 always posts and transfer 7 is
  the one rejected, because LIMIT would be overdrawn (`WaterfallChain.Close`).
- tb.go:240 says that transfer 7 is not linked and cleans up whatever happens. It is the
  last member of the chain, so it is rolled back with the rest.
- tb.go:72-76 says that a top-up period runs through A, B, C and then D. That needs one
  chain per worker. The batch path counts the draws of all n chains, so B is reached only
  for n < 3, C only for n = 1, D never; with the default of eight chains
  (tigerbeetle-setup/bench/main.go:45) A pays for everything (`TopUpCycle.WhoEverPays`).
- postgre-setup/go/cmd/bench/main.go:210-211 speaks of $10 000 and 500 draws of $0.01. The
  constants are $100 000 and 50 draws of $0.10; the model has the constants.
- docs/_posts/2026-03-27-deep-dive-postgresql-alloydb.md:268 says that all callers take
  their locks in the same sequence. Drawdown takes no account lock, and the order clause
  leaves ties open, so calls can deadlock from exactly those tables in which two active
  grants of one account share priority and expiry (`CallDeadlock.DeadlockExactly`,
  with a run from empty tables in `DrawRaces.TiesCanDeadlock`). For transfers and
  waterfall debits alone the claim holds (`Deadlock.NoDrawdownNoDeadlock`).
- Drawdown tests the total of an unlocked read. It may complete with less than its amount
  and report success, exactly if the calls on its account that can pass ask together for
  more than the account's grants hold, and then by at most that excess
  (`DrawShortfall.WorstCase`, `DrawShortfall.FallsShortExactly`, with a run from empty
  tables in `DrawRaces.StaleReadFallsShort`).
- postgre-setup/go/internal/grants/service.go:84 says that Drawdown consumes by earliest
  expiry. The query orders by priority first, and unlike WaterfallDebit it does not look at
  the expiry, so grants that are past due but not yet swept are still drawn on and still
  counted in the reported balance. The model does the same.
- docs/_posts/2026-03-27-deep-dive-postgresql-alloydb.md:280 shows a CHECK that no balance
  is negative. postgre-setup/go/internal/db/migrations/004_perf.sql:3 drops it, and Withdraw
  does not look at the balance, so accounts can be overdrawn; `History.OverdraftBound` says
  by how much.
- WaterfallDebit adds cash with its sign, so an overdrawn account can be refused although
  its grants suffice (`DrawGuarantees.RefusedThoughCovered`, with a run in
  `DrawRaces.OverdrawnIsRefused`).
- tb.go:101 names the limit of 8189 events in a request, and set-up and top-up split their
  lists by it; DoHardcoded and DoWithIDs send all 7n transfers at once, so with more than
  1169 chains per worker every call fails (`TopUpCycle.RunBatches`).
- The code never sets an isolation level, so its transactions run under READ COMMITTED.
  What is serial is the result, and that is proved (`SessionSafety.Serializable`).
- postgre-setup/go/internal/api/handlers/admin.go:63 puts the WHERE of the optional sample
  in front of the join, which SQL does not allow, so a request with a sample answers with
  an error. The model reports on the sample that the clause describes, all accounts if
  there is none.
- DoHardcoded counts its draws only if all chains were paid, DoOptimistic counts failed
  draws too (tb.go:202, 267). The model keeps both.
- The bank's number lies inside the layout from 5 714 286 chains on
  (`Layout.BankOutsideLayout`). The set-up would then take the existing bank for a chain's
  account, since it ignores "exists" results (tb.go:473-480).

## Model

| member | source | states |
|---|---|---|
| WaterfallSpec.WaterfallIsDraw | postgre-setup/go/internal/grants/service.go:261-302 | taking greedily source by source meets the rule: no source gives more than it has, the shares add up to the smaller of amount and total, and a source gives only after all earlier ones are empty |
| WaterfallSpec.DrawIsUnique | postgre-setup/go/internal/grants/service.go:261-302 | that description has exactly one solution, so every implementation below that meets it computes the same shares |
| WaterfallSpec.WaterfallSnoc | postgre-setup/go/internal/grants/service.go:266-302 | the loop view and the recursive view agree: one more source gives what all earlier ones left open |
| TigerBeetle.ChainKeepsSound | tigerbeetle-setup/main.go:304-372 | a chain that posts keeps total debits equal to total credits and overdraws no constrained account |
| TigerBeetle.BatchKeepsSound | tigerbeetle-setup/main.go:374-418 | the same for every batch, whatever chains, clamps and rejections it contains |
| TigerBeetle.ChainFrame | tigerbeetle-setup/main.go:304-372 | a posted chain leaves every account it does not name as it was |
| TigerBeetle.RejectedChainIsReported | tigerbeetle-setup/main.go:304-372 | a rejected chain leaves the ledger as it was and is reported member by member: the culprit at its own index with its own code, every other member as failed with it |
| TigerBeetle.LinkedPairRollsBack | tigerbeetle-setup/main.go:327-365 | two linked transfers of which the second overdraws: exactly two failures, the first as failed with the chain, the second as the overdraft, and no account changes |
| WaterfallChain.PullAll | tigerbeetle-setup/bench/tb.go:235-238 | any number of balancing pulls in a row, run on the machine, take the waterfall of the sources' headrooms, for any continuation of the chain |
| WaterfallChain.OpenAndPull | tigerbeetle-setup/bench/tb.go:234-238 | after the first five transfers LIMIT holds T and SETUP owes exactly what the sources could not give |
| WaterfallChain.Close | tigerbeetle-setup/bench/tb.go:239-243 | transfer 6 always posts; transfer 7 is rejected for exceeding credits exactly if SETUP owes more than LIMIT's T, up to the terminator's amount |
| WaterfallChain.ChainComputesWaterfall | tigerbeetle-setup/bench/tb.go:229-245 | for all balances and all T: the chain posts if and only if A+B+C+D >= T or T reaches the terminator's amount; a rejection is always at the seventh transfer; below that bound a posted chain moves exactly the waterfall shares to the destination and leaves SETUP and LIMIT square |
| WaterfallChain.DrewKeepsReady | tigerbeetle-setup/bench/tb.go:234-243 | after a draw the chain is ready for the next one: control accounts square, no source overdrawn |
| WaterfallChain.StrictBoundNeeded | tigerbeetle-setup/bench/tb.go:56 | at T equal to the terminator's amount every underfunded chain would be accepted and pay the destination more than the sources gave |
| WaterfallBatch.BatchSettlesChains | tigerbeetle-setup/bench/tb.go:193-200 | in one call with any number of chains each settles as if alone: a failed chain changes no account at all, and is reported as seven failures whose seventh names the overdraft |
| WaterfallBatch.NoFailuresMeansFunded | tigerbeetle-setup/bench/tb.go:198-200 | the call reports nothing if and only if every chain was funded |
| WaterfallBatch.FailuresNamed | tigerbeetle-setup/bench/tb.go:456-465 | the failures of a batch are exactly the seven members of each chain that was not funded, by their index in the batch, each once and in order, the seventh as the overdraft and the others as failed with it |
| WaterfallBatch.DirectDebit | tigerbeetle-setup/bench/tb.go:257-263 | the lone debit of A posts if and only if A alone holds T, and otherwise changes nothing |
| WaterfallBatch.FirstPaysAll | tigerbeetle-setup/bench/tb.go:247-251 | if A holds T the waterfall takes all of it from A |
| WaterfallBatch.OptimisticRefinesChain | tigerbeetle-setup/bench/tb.go:252-275 | direct debit first, chain only on rejection: same net change of every account and same success as the full chain |
| BankFunding.CreditsArePaid | tigerbeetle-setup/bench/tb.go:112-134 | every batch of plain credits from the bank is accepted in full, pays each account its sum and debits the bank the total |
| BankFunding.Client.Submit | tigerbeetle-setup/bench/tb.go:456-465 | one call to the server: a batch above the limit of 8189 is refused and changes nothing; otherwise the new ledger and the failures are those of the machine; double entry and overdraft limits survive either way |
| BankFunding.Client.CreateAccounts | tigerbeetle-setup/bench/tb.go:467-485 | a request above the limit is refused; otherwise it opens what does not exist, leaves what does, and counts both as success |
| BankFunding.Client.SubmitChunks | tigerbeetle-setup/bench/tb.go:171-184 | chunks of at most 8189 have together the effect of the whole list, none left out or sent twice, and none fails |
| WaterfallWorker.TopUpsPaid | tigerbeetle-setup/bench/tb.go:160-170 | the top-up list gives A, B and C of every chain fifty more, D and all other accounts nothing, and charges the bank for it |
| WaterfallWorker.Worker.BuildTopUps | tigerbeetle-setup/bench/tb.go:160-170 | the nested loops build that list, chain by chain, with fresh identifiers |
| WaterfallWorker.Worker.MaybeTopUp | tigerbeetle-setup/bench/tb.go:155-186 | below 150 counted draws nothing happens; from 150 on the counter returns to zero and every chain is topped up; only the worker's own accounts and the bank change |
| WaterfallWorker.Worker.SubmitChains | tigerbeetle-setup/bench/tb.go:193-200 | the loop over chains submits exactly the batch of all their seven-transfer programs, in one request: beyond 1169 chains it is refused and changes nothing |
| WaterfallWorker.Worker.DoHardcoded | tigerbeetle-setup/bench/tb.go:189-203 | after the top-up check every chain settles on its own if the batch fits one request (7n <= 8189), and none does otherwise; no error if and only if it fits and all chains were funded, and only then does the counter move; nothing but the worker's own accounts and the bank changes |
| WaterfallWorker.Worker.ResolveTargets | tigerbeetle-setup/bench/tb.go:212-219 | stops exactly at a chain with fewer than four looked-up accounts |
| WaterfallWorker.Worker.DoWithIDs | tigerbeetle-setup/bench/tb.go:207-226 | a short list or a batch above the limit changes nothing after the top-up; otherwise the batch of the looked-up sources is submitted; with the worker's own sources it has the outcome of DoHardcoded, other workers' accounts included |
| WaterfallWorker.Worker.TryDirectThenChain | tigerbeetle-setup/bench/tb.go:256-274 | runs the optimistic program on the server, chain only after a rejected debit |
| WaterfallWorker.Worker.DrawOn | tigerbeetle-setup/bench/tb.go:252-275 | top-up check, optimistic attempt, count: net effect and success of the full chain on the topped-up ledger, worker invariant kept |
| WaterfallWorker.Worker.DoOptimistic | tigerbeetle-setup/bench/tb.go:252-275 | the same for the worker's first chain; it succeeds if and only if that chain was funded, and counts either way |
| WaterfallWorker.Worker.DoOptimisticWithIDs | tigerbeetle-setup/bench/tb.go:279-306 | fewer than four accounts change nothing, not even the counter; the worker's own four give DoOptimistic, other workers' accounts included |
| WaterfallWorker.OthersStayReady | tigerbeetle-setup/bench/tb.go:64-67 | whatever one worker does, the chains of another stay ready with the balances they had |
| WaterfallSetup.BuildAccounts | tigerbeetle-setup/bench/tb.go:88-100 | bank first, then seven accounts per chain with the flags of their roles |
| WaterfallSetup.OpenInChunks | tigerbeetle-setup/bench/tb.go:101-109 | the chunked requests open what one request would |
| WaterfallSetup.OpeningLaysOut | tigerbeetle-setup/bench/tb.go:88-109 | every slot exists afterwards with zero balances and its flag, and accounts that existed before are unchanged |
| WaterfallSetup.BuildFunds | tigerbeetle-setup/bench/tb.go:113-126 | one credit per source, 50, 50, 50 and 1 000 000, with fresh identifiers |
| WaterfallSetup.FundingFunds | tigerbeetle-setup/bench/tb.go:127-134 | each source holds exactly its first balance and the bank has paid exactly their sum |
| WaterfallSetup.SetupWaterfall | tigerbeetle-setup/bench/tb.go:83-150 | on any server with room for the layout, every missing account is opened, every source gains its first balance at the bank's expense; on a server without these accounts every worker then has its own ready, full chains, and chains that were ready before are ready still |
| WaterfallSetup.WorkersStayApart | tigerbeetle-setup/bench/tb.go:86-92 | two different workers never share an account, so a call of one leaves the other's chains ready and their accounts unchanged |
| BenchRuns.StepKeepsOk | tigerbeetle-setup/bench/tb.go:155-306 | every request served, request lost before the server saw it, reply lost after, or call started, by any worker in any of the four draw methods, keeps the invariant of the whole benchmark: ledger sound, every worker's chains ready, counters bounded, identifiers fresh |
| BenchRuns.WholeRun | tigerbeetle-setup/bench/main.go:181-201 | from the set-up on, for any number of workers whose server calls interleave in any order: debits equal credits, no constrained account is overdrawn, every chain of every worker stays ready, every counter stays below 150 + n |
| BenchRuns.DrawIsWaterfall | tigerbeetle-setup/bench/tb.go:189-306 | at the moment its request is served in such a run, every draw request is the waterfall on the ledger of that moment: a batch settles all chains, a direct debit takes the whole waterfall from A or changes nothing, a chain after it settles the first chain (which requests a call sends: BenchCalls) |
| BenchRuns.CallWorker | tigerbeetle-setup/bench/tb.go:189-306 | any call of any one worker leaves all workers in good order |
| BenchRuns.RunCalls | tigerbeetle-setup/bench/tb.go:83-306 | set-up, the workers and any sequence of their calls: all workers end in good order |
| BenchCalls.TopsUpFirst | tigerbeetle-setup/bench/tb.go:155-186 | before its draw a call sends the top-up, in chunks, if and only if 150 draws have been counted; then A, B and C of every chain have fifty more and the counter is zero |
| BenchCalls.CountsAllOrNone | tigerbeetle-setup/bench/tb.go:189-226 | after the one request of a batch call the counter has grown by the number of chains if the batch fits one request and all were funded, and not at all otherwise |
| BenchCalls.NextIsTheChain | tigerbeetle-setup/bench/tb.go:256-275 | in every interleaved run: after the direct debit of an optimistic draw, and until it acts again, the worker's next request is the full chain on its first chain if A held less than the target, and there is none if A held enough |
| BenchCalls.TryAndChainInRun | tigerbeetle-setup/bench/tb.go:256-305 | in every interleaved run: a failed direct debit and the chain after it leave the first chain exactly as one chain on the ledger of the debit would, funded or not, whatever other workers did in between |
| BenchCalls.OptimisticAlone | tigerbeetle-setup/bench/tb.go:252-305 | the requests of one optimistic draw served one after the other have the net effect of one chain on the ledger it began on, count one draw, and give the destination the target if and only if the chain was funded |
| BenchCalls.LossesAreNotCounted | tigerbeetle-setup/bench/tb.go:456-465 | a lost request leaves the ledger alone, a lost reply leaves it as the request does; either way the call is over and nothing is counted |
| TopUpCycle.UnitDraw | tigerbeetle-setup/bench/tb.go:55 | a draw of one unit falls to the first source that holds anything |
| TopUpCycle.DrawReaches | tigerbeetle-setup/bench/tb.go:189-203 | one batch call debits one unit from the same source of every evenly filled chain and from no other |
| TopUpCycle.RefillReaches | tigerbeetle-setup/bench/tb.go:155-170 | a top-up raises what A, B and C can give by fifty each |
| TopUpCycle.RunBatches | tigerbeetle-setup/bench/main.go:181-201 | for any number m of calls in a row on n chains, if 7n fits one request: none fails, and call k is paid on every chain by source (k mod ceil(150/n)) / 50; if it does not fit: all m fail and nothing moves |
| TopUpCycle.RunFromSetup | tigerbeetle-setup/bench/main.go:96-201 | the same from a server without these accounts: set-up, a new worker and m calls, after which every source has paid exactly the number of units computed for it since it was opened; or, above the limit, the ledger is as the set-up left it |
| TopUpCycle.WhoEverPays | tigerbeetle-setup/bench/tb.go:72-76 | source s is ever drawn on if and only if n * s < 3: the promised cycle A, B, C needs a single chain per worker, with three or more chains only A ever pays, and D never pays |
| Layout.BasesAgree | tigerbeetle-setup/bench/pg.go:57-62 | the metadata store's account formula and the set-up's formula give the same number for all worker and chain counts |
| Layout.ChainNumbers | tigerbeetle-setup/bench/tb.go:136-148 | the seven account numbers of each chain of each worker: A to D, destination, SETUP, LIMIT in this order from 10 000 000 + 7 (i n + c) |
| Layout.LayoutInjective | tigerbeetle-setup/bench/tb.go:84-100 | two (worker, chain, slot) triples have the same account only if they are equal |
| Layout.BankOutsideLayout | tigerbeetle-setup/bench/tb.go:29 | the bank stays outside the layout if and only if the layout has at most forty million slots |
| MetadataIndex.TableOfRows | tigerbeetle-setup/bench/pg.go:58-67 | the list of four rows per user stores each row once, under its own key, and nothing else |
| MetadataIndex.MetadataStore.BulkInsert | tigerbeetle-setup/bench/pg.go:34-43 | adds exactly the rows of one chunk |
| MetadataIndex.MetadataStore.BuildRows | tigerbeetle-setup/bench/pg.go:58-67 | the three nested loops build the row list in order |
| MetadataIndex.MetadataStore.SetupWaterfall | tigerbeetle-setup/bench/pg.go:55-85 | the chunked load never repeats a key and ends with the full table; the user identifiers are those of the layout |
| MetadataIndex.AnswerIsSlice | tigerbeetle-setup/bench/pg.go:90-93 | the ordered query leaves the store one possible answer: the rows of those users in insert order |
| MetadataIndex.DealOut | tigerbeetle-setup/bench/pg.go:104-115 | dealing rows out by user gives each chain its own accounts in priority order |
| MetadataIndex.LookupAccounts | tigerbeetle-setup/bench/pg.go:89-117 | for every correct answer of the store the result is the worker's own sources, chain by chain, so DoWithIDs submits the batch of DoHardcoded |
| MetadataIndex.LookupFirstChain | tigerbeetle-setup/bench/pg.go:121-139 | the four sources of the worker's first chain, in priority order |
| WaterfallTransfers.AvailableIsHeadroom | tigerbeetle-setup/main.go:294-302 | with 64-bit wrap-around, the computed balance is the true headroom if and only if debits posted plus pending fit in 64 bits or their wrapped sum is still at least the credits |
| WaterfallTransfers.BuildWaterfallTransfers | tigerbeetle-setup/main.go:258-292 | it aborts if and only if it reaches a source whose counters do not fit in 64 bits before the target is met; otherwise loop and flag pass build one transfer per positive waterfall share of the sources read, in order, all but the last linked |
| WaterfallTransfers.SharesArePositive | tigerbeetle-setup/main.go:268-285 | every transfer built moves a positive amount to the destination |
| WaterfallTransfers.LinkedIsOneChain | tigerbeetle-setup/main.go:287-290 | all but the last linked means that the machine reads the list as one chain |
| WaterfallTransfers.SharesExecute | tigerbeetle-setup/main.go:236-256 | run on the ledger it was read from, the list posts and moves exactly the shares |
| WaterfallTransfers.BuiltBatchDraws | tigerbeetle-setup/main.go:229-256 | on current reads that fit and equal the headrooms (exactly when, says AvailableIsHeadroom), building and executing together draw the waterfall of the target from distinct sources |
| FirstFitBench.FirstFitPays | postgre-setup/go/cmd/bench/main.go:325-362 | first fit: the first account that can pay the whole amount does, with one matching entry; it fails, changing nothing, if and only if none can |
| FirstFitBench.BenchDb.Debit | postgre-setup/go/cmd/bench/main.go:247-253 | under the invariant that a flagged account holds zero, the flag test never changes the outcome of the guarded update |
| FirstFitBench.BenchDb.WaterfallDraw | postgre-setup/go/cmd/bench/main.go:325-336 | single statement on the first account plus transaction over the rest equal plain first fit, invariant kept |
| FirstFitBench.BenchDb.WaterfallOneTxn | postgre-setup/go/cmd/bench/main.go:338-362 | the loop over the remaining accounts is first fit |
| FirstFitBench.BenchDb.Reset | postgre-setup/go/cmd/bench/main.go:259-261 | sets a balance and clears the flag of that account only |
| FirstFitBench.BenchDb.SetupWaterfallBalances | postgre-setup/go/cmd/bench/main.go:263-279 | brings a group to the start of the cycle and touches no other account |
| FirstFitBench.BenchDb.TopUpPriorityAccounts | postgre-setup/go/cmd/bench/main.go:281-288 | refills the three priority accounts, never cash |
| FirstFitBench.ServedInTurn | postgre-setup/go/cmd/bench/main.go:218-227 | at position k of the cycle, first fit serves account (k mod 150) / 50 |
| FirstFitBench.BenchDb.RunWaterfall | postgre-setup/go/cmd/bench/main.go:290-323 | for any number of draws: none fails, draw k is served by account (k mod 150) / 50 with its entry, cash keeps its first balance, no account outside the group changes |
| Database.DrainIsWaterfall | postgre-setup/go/internal/grants/service.go:113-173 | the loop over locked rows takes the waterfall of their amounts: row by row, entry by entry, status by status |
| Serial.PostKeepsAudit | postgre-setup/go/internal/db/queries/transactions.sql:28-56 | moving a balance and appending its entry in one statement keeps every balance equal to the sum of its entries |
| Serial.CashAuditKept | postgre-setup/go/internal/ledger/service.go:176-396 | every operation keeps that sum and the running balance of every entry |
| Effects.IssueAddsOneRow | postgre-setup/go/internal/db/queries/grants.sql:1-4 | column by column: exactly one new grant, with the given account, amount twice, expiry, priority and key, active; nothing else changes |
| Effects.OpeningAddsOneAccount | postgre-setup/go/internal/db/migrations/001_init.sql:12-26 | exactly one new account, in its currency, with balance zero |
| Effects.DepositAddsToOneBalance | postgre-setup/go/internal/db/queries/transactions.sql:28-41 | one balance grows by the amount, one credit entry shows amount and new balance, nothing else changes |
| Effects.WithdrawTakesFromOneBalance | postgre-setup/go/internal/db/queries/transactions.sql:43-56 | the same for a withdrawal, with a debit entry |
| Effects.TransferMovesOneAmount | postgre-setup/go/internal/ledger/service.go:231-313 | two balances, two entries with them, one transaction; nothing else |
| Effects.SignUpOpensWithBonus | postgre-setup/go/internal/wallet/service.go:40-110 | one user, one dollar account holding the bonus, its entry and its transaction; nothing else |
| Effects.ExpireClosesItsRows | postgre-setup/go/internal/db/queries/grants.sql:37-40 | the marked rows change their status to expired and keep all else; no other row changes |
| GrantLife.TakeKeepsAudit | postgre-setup/go/internal/db/queries/grants.sql:26-35 | one take with its entry keeps initial = remaining + drawn and the status rule |
| GrantLife.DrainKeepsAudit | postgre-setup/go/internal/grants/service.go:266-302 | so does every turn of the consumption loop |
| GrantLife.GrantAuditKept | postgre-setup/go/internal/db/migrations/003_credit_grants.sql:4-35 | after every operation: ACTIVE implies 0 < remaining <= initial, DEPLETED holds exactly when remaining is 0, initial is remaining plus all drawdown entries |
| GrantLife.ApplyGrows | postgre-setup/go/internal/db/queries/grants.sql:26-40 | no operation removes or rewrites a user, transaction, entry or grant term; a grant's amount only shrinks and a finished grant stays finished |
| History.ReachableIsAudited | postgre-setup/go/internal/api/handlers/admin.go:37-68 | both audits hold in every database that any sequence of committed operations can produce |
| History.PrefixGrows | postgre-setup/go/internal/db/migrations/001_init.sql:28-73 | the tables only grow along every history |
| History.Reconciles | postgre-setup/go/internal/api/handlers/admin.go:37-68 | the reconciliation report is empty in every reachable database |
| History.RunningBalance | postgre-setup/go/internal/db/queries/transactions.sql:28-56 | the entries of each account form one chain of running balances from zero to the current balance |
| History.KeyTakesEffectOnce | postgre-setup/go/internal/db/migrations/001_init.sql:44-46 | a key has taken effect once if it is stored and never otherwise, and its effect is the stored transaction with its debit and matching credit (or the one sign-up credit) |
| History.GrantKeysAreUnique | postgre-setup/go/internal/db/migrations/003_credit_grants.sql:4-35 | no two grants of a reachable database carry the same key |
| History.CashBearsTheRest | postgre-setup/go/internal/grants/service.go:304-320 | what a waterfall debit leaves to cash never exceeds the cash |
| History.DebitedStaysNonNegative | postgre-setup/go/internal/db/queries/accounts.sql:27-31 | only Withdraw can leave an account that it debits below zero |
| History.OverdraftBound | postgre-setup/go/internal/db/queries/transactions.sql:43-56 | at all times a balance is at least minus what Withdraw ever took from that account |
| History.ApplyMovesInflow | postgre-setup/go/internal/ledger/service.go:231-257 | one operation changes the total of a currency by its inflow: zero for a transfer on either branch |
| History.Conservation | postgre-setup/go/internal/wallet/service.go:40-110 | in every currency the balances add up to sign-up credits and deposits less withdrawals less cash consumed by waterfalls |
| SessionSafety.SessionKept | postgre-setup/go/internal/grants/service.go:211-250 | what a call knows about the rows it has locked stays true while others commit |
| SessionSafety.GoStepsWell | postgre-setup/go/internal/ledger/service.go:190-279 | every step that does not commit re-establishes what the call relies on and takes at most one lock, one that nobody held |
| SessionSafety.CommitIsSerial | postgre-setup/go/internal/ledger/service.go:310-313 | at its commit, every call's private writes do what its operation does alone on the tables of that moment, and touch only rows under its own locks |
| SessionSafety.StepKeepsInv | postgre-setup/go/internal/grants/service.go:195-332 | every step, rollback, arrival and single-statement operation keeps the system invariant, for any number of concurrent calls |
| SessionSafety.ExecutionInv | postgre-setup/go/internal/grants/service.go:195-332 | so the invariant holds throughout every interleaving |
| SessionSafety.Serializable | postgre-setup/go/internal/api/handlers/admin.go:37-68 | at every moment of every interleaving the tables are those of the committed operations run one at a time in commit order, so they reconcile and every grant is accounted for |
| DrawGuarantees.RowsThenCash | postgre-setup/go/internal/grants/service.go:261-320 | drawing on rows by the loop and leaving the rest to cash is the waterfall over rows and cash together |
| DrawGuarantees.DebitIsAtomicWaterfall | postgre-setup/go/internal/grants/service.go:195-332 | one waterfall debit takes exactly its amount, split as the waterfall over live grants and cash; rows, statuses, entries and balance change by those shares and nothing else changes |
| DrawGuarantees.DebitListIsEligible | postgre-setup/go/internal/grants/service.go:223-230 | the rows drawn on are eligible grants of the account, and every eligible grant that existed at the query is among them |
| DrawGuarantees.WaterfallDebitRefinesAtomicStep | postgre-setup/go/internal/grants/service.go:205-331 | in every interleaving the commit of a WaterfallDebit is that atomic draw on the tables as they are committed at that moment |
| DrawGuarantees.WaterfallDecision | postgre-setup/go/internal/grants/service.go:252-259 | with its last lock granted the call holds the committed values, and gives up if and only if grants plus cash fall short of the amount |
| DrawGuarantees.RefusedThoughCovered | postgre-setup/go/internal/grants/service.go:252-259 | a refusal although non-negative sources would do happens if and only if cash is negative and the grants cover the amount but not the amount plus the overdraft |
| DrawGuarantees.DrawdownIsWaterfall | postgre-setup/go/internal/grants/service.go:113-173 | a committed Drawdown takes the waterfall of the rows it found live: the smaller of its amount and what they hold, never cash |
| DrawGuarantees.DrawdownCommit | postgre-setup/go/internal/grants/service.go:113-177 | in every interleaving a Drawdown takes the smaller of its amount and what its locked rows hold at the commit, row by row; all of its amount in particular if they still read as in the unlocked query |
| DrawOrder.DrawdownCommitInOrder | postgre-setup/go/internal/db/queries/grants.sql:12-15 | in any interleaving, over the rows before and after a Drawdown commits: of two active grants that its query returned, one with a larger priority number, or the same and a later expiry, shrinks only if the other ends empty |
| DrawOrder.DebitCommitInOrder | postgre-setup/go/internal/grants/service.go:223-330 | the same for a WaterfallDebit; and cash falls only if every active, unexpired grant of the account that existed at its query ends empty |
| DrawOrder.DrawdownInOrder | postgre-setup/go/internal/db/queries/grants.sql:12-15 | the same for one Drawdown on its own tables |
| DrawOrder.DebitInOrder | postgre-setup/go/internal/grants/service.go:223-330 | the same for one WaterfallDebit on its own tables, cash last |
| DrawDemand.StaysOverBy | postgre-setup/go/internal/grants/service.go:98-232 | if all draws under way on an account ask for at most e more than its grants hold, every step, rollback, affordable arrival and other operation keeps that so, for any number of calls of all kinds |
| DrawDemand.RunShortByAtMost | postgre-setup/go/internal/grants/service.go:98-177 | so in every such run a Drawdown that completes has taken all of its amount but at most e; without excess exactly its amount |
| DrawDemand.OpenMeansEmptied | postgre-setup/go/internal/grants/service.go:113-177 | a Drawdown that completes has taken the smaller of its amount and all that the account's grants hold, whenever its query missed none of them |
| DrawShortfall.WorstCase | postgre-setup/go/internal/grants/service.go:98-177 | on any table with no call under way, for any number of Drawdowns called at once: a call can complete if and only if its amount is positive and at most the balance, it never takes more than its amount, and the least it can take, which some run attains, is its amount less what the calls that pass ask for beyond the balance |
| DrawShortfall.FallsShortExactly | postgre-setup/go/internal/grants/service.go:98-130 | so it can report success with less than its amount if and only if it passes its test and the calls on the account that pass ask together for more than the grants hold |
| DrawShortfall.DrawdownsFallShortExactly | postgre-setup/go/internal/grants/service.go:98-130 | for two calls: the first can fall short if and only if both ask the same account, each for a positive amount within its balance, and together for more than it |
| CallHistories.RunGrows | postgre-setup/go/internal/db/migrations/001_init.sql:28-73 | between any two moments of a run the tables only grow |
| CallHistories.KeyedEffectIsUnique | postgre-setup/go/internal/ledger/service.go:266-279 | however many calls carry a key and however they interleave, at most one takes effect, with one transaction, one debit and one matching credit |
| CallHistories.StoredTransferIsFinal | postgre-setup/go/internal/ledger/service.go:199-208 | once a key is stored its transaction never changes: later calls return it and change nothing, calls under way with that key never commit |
| CallHistories.TransferRefinesAtomicStep | postgre-setup/go/internal/ledger/service.go:231-313 | in every interleaving a transfer that holds both accounts and its key commits, as one transfer of the balances committed at that moment: two balances, two entries with running balances, one transaction, nothing else |
| CallHistories.QueryIsRemembered | postgre-setup/go/internal/grants/service.go:98-111 | a drawdown under way always works on the list and amounts of its own unlocked query |
| CallHistories.UndisturbedDrawdownIsExact | postgre-setup/go/internal/grants/service.go:98-177 | a Drawdown whose locked grants are at its commit what they were at its query takes exactly its amount |
| SoloCalls.TransferAlone | postgre-setup/go/internal/ledger/service.go:177-318 | a transfer that has the tables to itself always ends; it completes if and only if the operation is enabled, and then does it; otherwise nothing changes and it ends as the first test that fails says: amount, same account, stored key, missing account, currency, funds |
| SoloCalls.DebitAlone | postgre-setup/go/internal/grants/service.go:200-332 | the same for WaterfallDebit: it completes if and only if the amount is positive, the account exists and the sum of its active, unexpired grants plus cash covers the amount; each failure has its condition on the tables |
| SoloCalls.DrawdownAlone | postgre-setup/go/internal/grants/service.go:85-180 | the same for Drawdown: it completes if and only if the amount is positive and within the account's grants, which then fall by exactly the amount |
| SoloCalls.SweepAlone | postgre-setup/go/internal/db/queries/grants.sql:37-40 | a sweep that has the tables to itself can close every active grant past due, however much of it has been used, and nothing else |
| SoloCalls.RefusedWithGrounds | postgre-setup/go/internal/ledger/service.go:181-279 | in every interleaving a call gives up only for a reason that the tables of that moment bear out; a transfer for lack of funds only if the balance it read is below the amount |
| SoloCalls.OutcomeTellsEffect | postgre-setup/go/internal/ledger/service.go:310-318 | in every interleaving, a call that ends is told that it completed if and only if at that moment exactly one operation of its own took effect; otherwise nothing changed |
| LockOrder.WaitsAbove | postgre-setup/go/internal/grants/service.go:198-232 | a call waits only for a lock that others hold and that stands above every lock of its own, in the order accounts, grants by priority and expiry, keys |
| LockOrder.PickExists | postgre-setup/go/internal/db/queries/grants.sql:12-15 | whatever the tables hold, the ordered query has an answer |
| Deadlock.GrantsUncontended | postgre-setup/go/internal/grants/service.go:211-232 | without drawdowns, whoever holds an account finds its grants free |
| Deadlock.SomeCallCanRun | postgre-setup/go/internal/ledger/service.go:231-257 | in every state that meets the invariant, with ties ordered or no drawdown under way, some unfinished call can take its next step |
| Deadlock.NoDeadlock | postgre-setup/go/internal/grants/service.go:198-232 | deadlock freedom over all runs of any number of transfers, waterfall debits and drawdowns whose queries break ties one fixed way |
| Deadlock.NoTiesNoDeadlock | postgre-setup/go/internal/grants/service.go:223-230 | the order clause alone suffices if no two active grants of one account share priority and expiry |
| Deadlock.NoDrawdownNoDeadlock | postgre-setup/go/internal/grants/service.go:198-199 | transfers and waterfall debits alone never deadlock, however ties are broken |
| Deadlock.StepUsesWork | postgre-setup/go/internal/ledger/service.go:190-313 | an unfinished call has a bounded number of steps left and every step uses one |
| Deadlock.WorkShrinks | postgre-setup/go/internal/ledger/service.go:190-313 | the steps left in all calls together shrink with every step and every rollback |
| Deadlock.RunsEnd | postgre-setup/go/internal/grants/service.go:205-331 | without new arrivals a run is at most as long as the work left at its start |
| Deadlock.EveryCallFinishes | postgre-setup/go/internal/grants/service.go:205-331 | with ties broken one fixed way and no sweep under way, a run without new arrivals is bounded, and where it cannot go on every call is done |
| Deadlock.CallsCanFinish | postgre-setup/go/internal/grants/service.go:205-331 | from every state with one tie order and no sweep under way, the open calls have a run that ends them all |
| DrawDeadlock.DrawdownsBlockExactly | postgre-setup/go/internal/grants/service.go:98-125 | on any table with no call under way, for any accounts and amounts: two Drawdowns can block each other if and only if they ask the same account, both pass their test, and two different active grants tie for its first place, each holding less than the call that takes it wants |
| DrawDeadlock.RivalsBlock | postgre-setup/go/internal/grants/service.go:98-125 | the six steps that lead two such Drawdowns into each other, on any such table |
| CallDeadlock.DeadlockExactly | postgre-setup/go/internal/grants/service.go:98-232 | from any table with no call under way, any number of transfers, debits and drawdowns, next to deposits, withdrawals and sign-ups, can reach a deadlock if and only if two active grants of one account share priority and expiry |
| CallDeadlock.TiesBlock | postgre-setup/go/internal/grants/service.go:98-173 | wherever two active grants tie, however far down the list, drawdowns can empty what stands before them and then block each other |
| DrawRaces.TiesCanDeadlock | postgre-setup/go/internal/grants/service.go:113-125 | a run from empty tables to such a deadlock: an account with two grants of 5 of one priority and expiry, two Drawdowns of 8 that have just been called, and only their own steps from there on |
| DrawRaces.StaleReadFallsShort | postgre-setup/go/internal/grants/service.go:98-130 | a run from empty tables to such a shortfall: two Drawdowns of 8 just called on an account that holds 10, only their own steps from there on, and the second completes with 2 |
| DrawRaces.OverdrawnIsRefused | postgre-setup/go/internal/grants/service.go:252-259 | a run from empty tables in which a waterfall debit of 8 is refused although the account's grant holds 10, because a withdrawal has overdrawn its cash by 5 |
| PostgresTables.Tables.DebitAccount | postgre-setup/go/internal/db/queries/accounts.sql:27-31 | the guarded update changes a row if and only if it exists and its balance suffices |
| PostgresTables.Tables.CreditAccount | postgre-setup/go/internal/db/queries/accounts.sql:33-37 | the unguarded credit changes exactly the named row if it exists |
| PostgresTables.Tables.CreateTransaction | postgre-setup/go/internal/db/queries/transactions.sql:1-14 | stores the row if and only if its key is new |
| PostgresTables.Tables.CreateLedgerEntry | postgre-setup/go/internal/db/queries/ledger.sql:1-12 | appends one entry |
| PostgresTables.Tables.DepositAtomic | postgre-setup/go/internal/db/queries/transactions.sql:28-41 | balance and entry in one step, or nothing if the account is missing |
| PostgresTables.Tables.WithdrawAtomic | postgre-setup/go/internal/db/queries/transactions.sql:43-56 | the same for a debit, whatever the balance |
| PostgresTables.Tables.DrawdownGrant | postgre-setup/go/internal/db/queries/grants.sql:26-30 | decrements a row if and only if it is active and holds enough |
| PostgresTables.Tables.DepleteGrant | postgre-setup/go/internal/db/queries/grants.sql:32-35 | empties and closes the row, unconditionally |
| PostgresTables.Tables.CreateGrantLedgerEntry | postgre-setup/go/internal/db/queries/grants.sql:47-50 | appends one audit entry |
| PostgresTables.Tables.ExpireActiveGrants | postgre-setup/go/internal/db/queries/grants.sql:37-40 | every active row that expires before now becomes expired and keeps all else, every other row is unchanged, and the count is the number of those rows |
| PostgresTables.Tables.GetGrantBalance | postgre-setup/go/internal/db/queries/grants.sql:42-45 | the loop over rows in any order returns the sum over the account's active grants |
| PostgresTables.Tables.Begin | postgre-setup/go/internal/ledger/service.go:191-195 | remembers the tables of the transaction's start |
| PostgresTables.Tables.Rollback | postgre-setup/go/internal/ledger/service.go:195 | restores the tables that Begin remembered |
| CashService.LedgerService.Transfer | postgre-setup/go/internal/ledger/service.go:177-318 | for any stale unlocked reads: all of the transfer or nothing; with current reads it completes if and only if the operation is enabled, returns a stored transaction if and only if the key is stored, and each error has its exact condition |
| CashService.LedgerService.MoveInOrder | postgre-setup/go/internal/ledger/service.go:231-259 | both branches of the ID order have the same effect, and the debit's guard decides |
| CashService.EarlierReadsWereCommitted | postgre-setup/go/internal/ledger/service.go:201-221 | reads of any earlier committed tables are admissible for Transfer |
| CashService.LedgerService.Deposit | postgre-setup/go/internal/ledger/service.go:321-357 | outcome by amount and existence of the account; the state is that of one Deposit operation or unchanged |
| CashService.LedgerService.Withdraw | postgre-setup/go/internal/ledger/service.go:360-396 | the same for Withdraw, with no test of the balance |
| CashService.LedgerService.CreateUser | postgre-setup/go/internal/wallet/service.go:40-110 | user, account, bonus, transaction and entry together, or nothing if user or derived key is taken |
| CashService.LedgerService.Reconcile | postgre-setup/go/internal/api/handlers/admin.go:40-68 | the report holds exactly min(limit or 100, number found) of the sampled accounts whose balance differs from their entries, each with its balance, sum, count and balance less sum, ranked by the size of that difference, none left out that differs by more than one listed |
| CreditService.GrantsService.IssueGrant | postgre-setup/go/internal/grants/service.go:48-82 | a non-positive amount is refused, a known key returns its grant and changes nothing, an unknown account is refused, and otherwise the grant table gains exactly one row, active, holding its full amount, with the given account, expiry, priority and key, while no other table changes |
| CreditService.GrantsService.Consume | postgre-setup/go/internal/grants/service.go:127-164 | one locked grant gives the smaller of its amount and what is left to draw; its row, status and entry show that, and the guarded update never misses |
| CreditService.GrantsService.Drawdown | postgre-setup/go/internal/grants/service.go:85-180 | passes or fails by the sum of what its query read, and then has the effect of one Drawdown operation on what the rows really hold; grants empty in the order of priority and expiry, and the result names exactly those that shrank, in list order, each with what it gave |
| CreditService.GrantsService.ConsumeIfActive | postgre-setup/go/internal/grants/service.go:113-173 | lock, skip if closed, consume, stop at zero: the draw over the whole list |
| CreditService.GrantsService.LockGrants | postgre-setup/go/internal/grants/service.go:223-250 | the locked rows with their amounts, in list order |
| CreditService.GrantsService.ConsumeInOrder | postgre-setup/go/internal/grants/service.go:261-302 | the loop over locked rows is the draw over the list |
| CreditService.GrantsService.WaterfallDebit | postgre-setup/go/internal/grants/service.go:200-332 | each error has its exact condition and changes nothing; otherwise one WaterfallDebit operation: grants empty in the order of priority and expiry and cash goes last, and the result names exactly the grants that shrank, in list order, each with what it gave, the cash consumed and the new balance |
| CreditService.GrantsService.ExpireGrants | postgre-setup/go/internal/grants/service.go:334-337 | every active grant that expires before now becomes expired and keeps all else, nothing else changes, and the count is the number of those grants |
| GrantBalances.QuerySumIsBalance | postgre-setup/go/internal/db/queries/grants.sql:12-15 | the sum over the rows of the active-grants query is the reported grant balance |
| GrantBalances.DrawLowersBalance | postgre-setup/go/internal/grants/service.go:113-173 | a draw lowers the account's reported balance by exactly what it took, and no other account's |
| GrantBalances.SerialDrawdown | postgre-setup/go/internal/grants/service.go:85-180 | a Drawdown on current reads passes its test if and only if its amount is at most the reported balance, and lowers it by exactly that |
| GrantBalances.PositiveFilterIsRedundant | postgre-setup/go/internal/grants/service.go:225-228 | the filter remaining_amount > 0 never excludes a row that the other filters admit |

## Left out

- WaterfallSetup.SetupWaterfall: assumes that the layout stays below the bank's number and that a bank which exists already is unconstrained.
- CashService.LedgerService.Reconcile: the random sample of accounts is a parameter.
- MetadataIndex.MetadataStore.SetupWaterfall: assumes the freshly truncated table.
- Deadlock.NoDeadlock: excludes states with a sweep of expired grants under way, whose UPDATE locks rows in no stated order; so do the other results of LockOrder.dfy, Deadlock.dfy, DrawDeadlock.dfy and CallDeadlock.dfy. The sweep is part of every result outside them.
- DrawDemand.StaysOverBy: leaves out sweeps and new grants on the account itself: a sweep takes from the balance what no call asked for, and a Drawdown under way does not see a new grant.
- DrawShortfall.WorstCase: speaks of Drawdowns only; WaterfallDebits on the same account are part of the guarantee in DrawDemand.dfy, not of the attained minimum.
- CallDeadlock.DeadlockExactly: leaves out runs in which grants are issued, since a new grant may tie with an old one.
- Sessions: once a WaterfallDebit or Drawdown holds its locks, its private statements count as one step; the loops themselves are proved in CreditService.dfy. Sign-up, deposit, withdrawal and grant issue are single steps.
- Sessions: database errors and lock timeouts appear only as a rollback that may happen at any step; the share locks of foreign keys, which fall on rows that the call has locked already, are not modelled.
- Sessions: a concurrent ExpireGrants may commit any set of due grants that it has locked, as READ COMMITTED allows.
- IssueGrant during a WaterfallDebit: a grant inserted after the debit's query may be missed; the results speak of the grants that existed at the query.
- Amounts finer than 10^-12, which PostgreSQL rounds separately in balance and entry.
- Idempotency of Deposit, Withdraw, Drawdown and WaterfallDebit: the code never stores their keys.
- REVOKED grants and EXPIRATION entries: no operation of the repository writes them.
- ExecBatch and the HTTP batch: how results line up with operations after an error inside a pipeline group depends on the driver, which is not part of this model.
- TigerBeetle internals, pending, post and void transfers, timeouts, 128-bit overflow and identifier formats; the pending counters appear only where they bound a clamp.
- The hot-account and fan-out scenarios, HTTP routing, authentication, configuration, connection pool, stress client, reports, percentiles, change capture, queues, ClickHouse, backup and Docker scripts.
