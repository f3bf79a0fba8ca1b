# Finality search and block delivery of the finality gadget

A Dafny model of two objects of the finality gadget, and proofs about every run of them.

* `FinalizedStateProvider` answers "what is the newest finalized L2 block?". It probes a few heights near the
  head, then bisects; each probe weighs the votes for a block against the voting power at a BTC height; five
  bounded caches and a stored height are shared by all requests.
* `L2BlockHandler` looks at the L2 head on every tick and hands each block that is due to the registered
  processers.

## How it is modelled

| file | what it holds |
|---|---|
| `Machine.dfy` | `uint64` arithmetic with wrap-around, results |
| `Quorum.dfy` | the two summation loops, the 2/3 comparison and its mathematics |
| `World.dfy` | the remote services as functions of a clock, and what the provider relies on |
| `Lookups.dfy` | the provider's state as a value and each cached lookup as a function on it |
| `Micro.dfy` | a probe cut at every lock and remote call; safety of each piece |
| `Search.dfy` | the search as the points where it waits for an answer; safety of one search |
| `Caching.dfy` | when a lookup calls a service and when it answers from its cache, in any world |
| `Bracketing.dfy`, `Refinement.dfy`, `Cost.dfy` | what one search finds, against a plain scan, and what it costs |
| `Verdict.dfy` | a search judged by its log alone: first checks, answer, stored height, errors, in any world |
| `Runs.dfy`, `Regression.dfy` | whole sequential runs, and two runs whose results fall |
| `Concurrent.dfy`, `Race.dfy` | every interleaving of many searches; when an answer can be taken back, and an interleaving in which one is |
| `Provider.dfy` | the provider as a class with mutable fields, each method equal to its function |
| `Delivery.dfy`, `Handler.dfy` | the block loop as functions with their theorems, and as a class |

Every remote call happens at a tick of one clock, and `World` says for each tick what every service would
answer and whether it fails. A world is universally quantified, so heads move, votes arrive and calls fail
between any two calls in any way at all. The classes read the same world; their methods end with
`(Abs(), r) == F(w, old(Abs()))`, so the lemmas about `F` are statements about the objects.

## What the proofs rely on

The hypotheses are named predicates of `World.dfy` and stand in the `requires` of each theorem that needs them.

* `OneChain`: one block a height, distinct hashes printed with `0x`.
* `FixedPower`: the provider set, the time to BTC height map and past voting power do not change, and three times
  the total power fits in `uint64`. (The power cache is keyed by BTC height alone, so a changed provider set
  would be answered with the power of the old one.)
* `GrowingVotes`: vote lists have no repeats and only grow. That finality persists is then proved.
* `DownwardClosed`: below a finalized height, down to 1, every height is finalized.
* Height 1 is the floor: the code replaces a stored 0 by 1 and never verifies 1.
* `UpFrom` (no call fails from a tick on) and `Frozen` (no vote is added from a tick on) only where stated.

Block heights are below 2^63 (`Height`): the code converts them with `int64(number)`, and `MidExact` shows that
the midpoint of the bisection lies between its ends exactly when the `uint64` sum does not wrap.

## Results that are not what one might expect

* **The cached vote list may be short forever.** A list is cached the first time a block is probed, and only a
  flush of the whole map (more than 4096 entries) removes it. A "finalized" answer is always true; a "not
  finalized" answer may be stale. `ProbeExact` says that on a still remote state without
  failures a probe tells the truth if and only if its list is not stale.
* **Results can fall through a stale list.** `Regression.ResultsFall` is an error-free run in which votes only grow,
  heads are 5, 6, 7, heights 1 to 5 are finalized from the second search on, and the three results are 1, 5, 1.
  `QueryFinds` says what a search is worth in every state: it reaches each finalized height up to which no list
  above the stored height is stale. `BracketsExactly` says when a search is right for every head: when no list above
  the stored height is stale at all.
* **Results can fall through a swallowed error.** With no list stale up to the earlier result, `RunFallsExactly`
  leaves one way for a result to fall, whatever failed before: the earlier result was the head itself, the head has
  not moved, the stored height is below it, and the probe of the height below the head tells the truth.
  `Regression.SwallowedErrorFalls` is such a run: at head 2, with every height finalized all along, the first search
  loses its first check to an error, answers 2 without storing it, and the next search answers 1. It takes a failed
  call or a full vote cache: without either, and still with no list stale up to the earlier result,
  `GrowingRunRises` and `GrowingRunNeverFalls` show that results only rise.
* **A head below the stored height may be overshot.** `LowHeadAnswers` says in any world that such a search, if it
  gives no error, answers head - 1 or a height from the head up to below the stored height, and stores nothing.
  `LowHeadExactly` says which when no call fails: head - 1 if and only if that height's list is not stale.
* **Answers can reverse under concurrency.** Sequentially no probe answer is ever taken back
  (`NoAnswerTakenBack`). With two goroutines one can (`Race.AnswersReverse`): a goroutine that fetched a list early
  stores it and answers from it after another one has answered "finalized". `Race.DeniedExactlyWhenPoised` says
  exactly when: a finalized height whose cached list is not stale will never again be answered "not finalized", by
  anybody, if and only if no goroutine holds that answer, or an unstored list that yields it, at this moment.
* **Arithmetic.** The check is right for every power map of a given total, and every list without repeats, if and
  only if three times the total is below 2^64 (`TotalBoundIsExact`). It is right for every power map within that bound if and
  only if the list has no repeats (`RepeatsAreExactlyTheFlaw`).
* **Comments that the code does not follow.** The comment above the quorum check says "more than 2/3"; the code
  accepts exactly 2/3. It says a disabled gadget always answers true; the code never asks. The log line "block not
  finalized by no totalPower" stands beside `return true`. The comment "from is a finalized block" does not hold at
  the floor, nor, without downward closure, when the head lies below the stored height and the ends are swapped. The
  model follows the code.

## Model

| member | source | states |
|---|---|---|
| Quorum.TotalPower | finality-gadget/rpc/provider/finality_state_provider.go:370-374 | the loop over the power map gives the total modulo 2^64 whatever order the map is visited in |
| Quorum.VotedPower | finality-gadget/rpc/provider/finality_state_provider.go:391-397 | the loop over the voters gives the sum of their powers modulo 2^64; voters without power add nothing |
| Quorum.QuorumExact | finality-gadget/rpc/provider/finality_state_provider.go:370-404 | with three times the total below 2^64 and no repeats, the machine decision is "no power at all, or the set of voters holds at least two thirds"; nil and empty lists decide alike; voted is at most total |
| Quorum.QuorumIntersection | finality-gadget/rpc/provider/finality_state_provider.go:370-404 | two lists that both pass share voters holding at least a third of the total power |
| Quorum.VotesMonotone | finality-gadget/rpc/provider/finality_state_provider.go:391-404 | more voters never turn finalized into not finalized |
| Quorum.PowerlessVotersIgnored | finality-gadget/rpc/provider/finality_state_provider.go:393-397 | lists with the same powered voters decide alike, in any order |
| Quorum.TotalBoundIsExact | finality-gadget/rpc/provider/finality_state_provider.go:371-404 | the wrapped check is right for every power map of a total exactly when three times the total is below 2^64 |
| Quorum.RepeatsAreExactlyTheFlaw | finality-gadget/rpc/provider/finality_state_provider.go:391-404 | with three times the total below 2^64, the check is right for every power map exactly when the voter list has no repeats |
| World.FinalityPersists | finality-gadget/rpc/provider/finality_state_provider.go:356-405 | the uncached decision on a block never goes from finalized to not finalized while vote lists grow |
| Micro.AloneIsAnswer | finality-gadget/rpc/provider/finality_state_provider.go:217-303 | the read, fetch and write pieces of a probe run without interruption are the sequential probe |
| Micro.StepSafe | finality-gadget/rpc/provider/finality_state_provider.go:217-303 | each single piece, run among any others, keeps all caches coherent with the remote services and the goroutine's locals right |
| Micro.StepBounded | finality-gadget/rpc/provider/finality_state_provider.go:240-249 | the flush-then-insert rule keeps every cache at 4097 entries or fewer, whatever the remote services say |
| Micro.ProbeSound | finality-gadget/rpc/provider/finality_state_provider.go:255-303 | a cached probe that answers finalized agrees with the uncached decision now, and it never denies a height that is known finalized |
| Bracketing.ProbeExact | finality-gadget/rpc/provider/finality_state_provider.go:448-485 | on a still remote state without failures a probe gives the uncached decision if and only if the height's cached vote list is not stale |
| Caching.FpsFreshness | finality-gadget/rpc/provider/finality_state_provider.go:407-446 | the provider list is answered without a call exactly when it is not empty and at most 240,000,000,000 ns old; otherwise the answer is an error that changes nothing, or what the service says at the last tick of this call, kept with its time |
| Caching.FpsAskedAgain | finality-gadget/rpc/provider/finality_state_provider.go:647-657 | of two calls the second answers the first one's list while that is fresh and what the service says now as soon as it is not |
| Caching.LookupsAgain | finality-gadget/rpc/provider/finality_state_provider.go:217-253 | the block, BTC height, power and vote lookups, once answered, answer the same again in any world without a call: by number, by hash alone, by BTC height alone, by hash alone |
| Caching.ProbeAgain | finality-gadget/rpc/provider/finality_state_provider.go:255-303 | a whole probe answered finalized is answered so again in any world without a call; one answered not finalized is too while the provider list is fresh |
| Caching.ProbeOneMore | finality-gadget/rpc/provider/finality_state_provider.go:239-250 | a probe adds at most one key to each cache and replaces none; keys are lost only when another key is put into a map of more than 4096 |
| Caching.ErrorsAreGenuine | finality-gadget/rpc/provider/finality_state_provider.go:255-303 | the error of a probe is that of the last call it made, which did fail |
| Caching.ProbeInOutage | finality-gadget/rpc/provider/finality_state_provider.go:255-303 | with every service down a probe answers exactly when its caches allow it, with no power needing no votes; otherwise it names the missing item, in the order block, providers, BTC height, power, votes |
| Caching.NoPowerNoVotes | finality-gadget/rpc/provider/finality_state_provider.go:376-380 | where no provider has power the probe does the same whatever the vote service says or fails to say, leaves the vote cache alone, and answers finalized when every other call is answered |
| World.BlockIdentity | finality-gadget/rpc/provider/finality_state_provider.go:275-279 | the query for a height names that height with the time and the hash, without its `0x`, of the chain's block |
| Search.MidExact | finality-gadget/rpc/provider/finality_state_provider.go:321 | the `uint64` midpoint lies strictly between the ends exactly when the sum does not wrap |
| Search.MidHalves | finality-gadget/rpc/provider/finality_state_provider.go:321-336 | for block heights it never wraps and the two parts are the rounded-up and rounded-down halves |
| Search.SplitIsFromTo | finality-gadget/rpc/provider/finality_state_provider.go:209-212 | the waiting-point form of the bisection with its final store equals the recursive form, ends in either order |
| Search.RunSafe | finality-gadget/rpc/provider/finality_state_provider.go:129-215 | any search, errors included, keeps the caches coherent, never lowers the stored height, stores and answers only finalized heights or the floor |
| Search.RunCovers | finality-gadget/rpc/provider/finality_state_provider.go:147-207 | no height known finalized below the head is overlooked, the answer lies between the start and the head, and so does the stored height |
| Bracketing.QueryFinds | finality-gadget/rpc/provider/finality_state_provider.go:129-215 | from any state, stale lists or not, while finality grows between probes and the first probe's error is swallowed, an answer without error is finalized at return, lies between the start and the head, and reaches every height below the head that was finalized at the start with no stale list between the stored height and it |
| Bracketing.QueryBrackets | finality-gadget/rpc/provider/finality_state_provider.go:129-215 | its special case with no stale list above the stored height: an answer without error is at least every height below the head that was finalized at the start |
| Refinement.BracketsExactly | finality-gadget/rpc/provider/finality_state_provider.go:129-215 | with no failing call, searches from a state are right for every head if and only if no list above the stored height is stale (the only-if part with 66 free places in the vote cache, so that no flush is due) |
| Refinement.StaleLosesGround | finality-gadget/rpc/provider/finality_state_provider.go:448-485 | with a stale list at `h` above the stored height, no failing call and 66 free places in the vote cache, the search at head `h + 1` answers below `h` although `h` is finalized |
| Refinement.FastIsLinear | finality-gadget/rpc/provider/finality_state_provider.go:129-215 | on a still remote state, without errors, with the head above the stored height and no stale list above the stored height up to head - 1 nor at head - 1, all shortcuts plus bisection return exactly what a scan down from head - 1 returns |
| Refinement.EndsOnItsAnswers | finality-gadget/rpc/provider/finality_state_provider.go:305-337 | in any world and from any state, a bisection without error ends on a height that is `from` or was answered finalized in this search, and whose successor is `to` or was answered not finalized in it |
| Refinement.FrontierFound | finality-gadget/rpc/provider/finality_state_provider.go:305-337 | from any coherent state, while finality grows in any shape, that height is `from` or finalized, and its successor is `to`, or was not finalized at the start, or had a stale list |
| Refinement.LocalFrontier | finality-gadget/rpc/provider/finality_state_provider.go:305-337 | on a still remote state, without errors and with no stale list between the ends, the bisection ends on a local frontier of finality, downward closed or not |
| Refinement.LowHeadAnswers | finality-gadget/rpc/provider/finality_state_provider.go:133-212 | in any world and from any state, a search whose head is below its start and that gives no error answers head - 1, answered finalized, or a frontier of its answers from the head up to below the start, and leaves the stored height alone |
| Refinement.LowHeadExactly | finality-gadget/rpc/provider/finality_state_provider.go:147-212 | with no failing call such a search answers head - 1 if and only if that height's list is not stale, and otherwise the head or above |
| Verdict.FromToVerdict | finality-gadget/rpc/provider/finality_state_provider.go:305-337 | in any world a bisection without error ends on the greatest height answered finalized, has stored one below each of them, and reports the first error as its last act |
| Verdict.SearchVerdict | finality-gadget/rpc/provider/finality_state_provider.go:147-212 | in any world and from any state with the head above the start: head - 1 is checked first and answered at once if finalized; then head - 256 if above the start, then the next height; the answer is the greatest of the start and the heights answered finalized, and it is stored unless the head is next to the start |
| Verdict.RestVerdict | finality-gadget/rpc/provider/finality_state_provider.go:140-142 | a head equal to the start is answered with no check and no change |
| Verdict.ErrorsReported | finality-gadget/rpc/provider/finality_state_provider.go:129-212 | in any world, from any state, for any head: only the error of the first check, of head - 1, is swallowed; any other failing check is the last thing the search does and its error, that of the last call made, is returned; an answer means that no other check failed |
| Cost.CeilLog2Meaning | finality-gadget/rpc/provider/finality_state_provider.go:321-336 | the logarithm of the cost bound is the rounded-up binary logarithm |
| Cost.QueryCost | finality-gadget/rpc/provider/finality_state_provider.go:129-215 | a search makes at most three checks more than the rounded-up logarithm of the distance from the start to the head |
| Cost.QueryCostNearHead | finality-gadget/rpc/provider/finality_state_provider.go:158-174 | at most eleven checks, errors or not, when the height 256 below the head is above the start and finalized and its list is not stale |
| Runs.EveryRunReached | finality-gadget/rpc/provider/finality_state_provider.go:255-303 | in every state of every sequential run the history invariant holds that links the finalized cache, the vote cache and all answers given before |
| Runs.NoAnswerTakenBack | finality-gadget/rpc/provider/finality_state_provider.go:255-303 | in a sequential run a height once answered finalized is never answered not finalized, through any number of flushes and errors, whatever the shape of finality |
| Runs.FallsExactly | finality-gadget/rpc/provider/finality_state_provider.go:176-192 | a search with no stale list up to an earlier result, in which no call fails, answers less than that result exactly when it was the head, above the stored height, and the height below it has no stale list |
| Runs.RunFallsExactly | finality-gadget/rpc/provider/finality_state_provider.go:129-215 | the same for any two consecutive searches of a whole run with rising heads, whatever failed before the later one; results never pass their head |
| Runs.GrowingRunRises | finality-gadget/rpc/provider/finality_state_provider.go:129-215 | while votes and heads grow and no call fails, a search after one that began with a vote cache below its limit never answers less, if no list is stale up to the earlier result when it starts |
| Runs.GrowingRunNeverFalls | finality-gadget/rpc/provider/finality_state_provider.go:129-215 | the same between any two searches of a whole run, under the same condition on each search between them |
| Runs.FrozenRunRises | finality-gadget/rpc/provider/finality_state_provider.go:129-215 | while no vote is added, no call fails and heads do not fall, a search never answers less than the one before, however often caches are flushed, if at the earlier one no list was stale above the stored height up to its result nor at head - 1 |
| Runs.FrozenRunNeverFalls | finality-gadget/rpc/provider/finality_state_provider.go:129-215 | the same between any two searches of a whole run, if at the first one no list was stale from the stored height to the last head |
| Regression.ResultsFall | finality-gadget/rpc/provider/finality_state_provider.go:448-485 | a concrete error-free run with rising heads and growing votes whose results are 1, 5, 1 |
| Regression.SwallowedErrorFalls | finality-gadget/rpc/provider/finality_state_provider.go:147-192 | a concrete run with one failing tick, no stale list and a head resting at 2 whose results are 2, 1 |
| Concurrent.AnswersKept | finality-gadget/rpc/provider/finality_state_provider.go:217-303 | any interleaving keeps the caches coherent, the goroutines' locals right and every answer logged from any chosen moment on worth what it says, whatever the shape of finality |
| Concurrent.EveryInterleaving | finality-gadget/rpc/provider/finality_state_provider.go:217-337 | any interleaving of any number of searches keeps the caches coherent, every logged answer right, the stored height rising and finalized, and each search's own promise |
| Concurrent.StoredHeightSafe | finality-gadget/rpc/provider/finality_state_provider.go:113-127 | from process start, at any two moments of any interleaving, the stored height has not fallen and is at most 1 or finalized |
| Concurrent.FinalizedAnswersTrue | finality-gadget/rpc/provider/finality_state_provider.go:255-303 | under any interleaving every finalized answer agrees with the uncached decision, then and ever after |
| Concurrent.StillAnswersExact | finality-gadget/rpc/provider/finality_state_provider.go:217-303 | under any interleaving on a still remote state every answer is the uncached decision |
| Concurrent.ConcurrentSearchesBracket | finality-gadget/rpc/provider/finality_state_provider.go:129-215 | from any moment of any run, with any searches under way, a search that has not read the stored height yet answers a finalized height between its start and its head, and reaches every height below the head that was finalized at that moment with no stale list and no poised goroutine between the stored height and it |
| Concurrent.CapacityAlways | finality-gadget/rpc/provider/finality_state_provider.go:285-297 | no cache ever holds more than 4097 entries, under any interleaving and any remote behaviour |
| Concurrent.SoloRun | finality-gadget/rpc/provider/finality_state_provider.go:129-215 | a goroutine left alone does exactly what the sequential search does |
| Race.DeniedExactlyWhenPoised | finality-gadget/rpc/provider/finality_state_provider.go:448-485 | at any moment of any run, a finalized height whose list is not stale is never again answered not finalized, whatever happens, if and only if no goroutine is about to answer so from a list it fetched earlier |
| Race.TakenBackExactly | finality-gadget/rpc/provider/finality_state_provider.go:448-485 | the same from process start for every height answered finalized: when that answer can be taken back |
| Race.AnswersReverse | finality-gadget/rpc/provider/finality_state_provider.go:448-485 | a concrete error-free interleaving in which finalized is followed by not finalized for the same height |
| Provider.FinalizedStateProvider.constructor | finality-gadget/rpc/provider/finality_state_provider.go:98-110 | a new provider has a stored height of 0 and empty caches |
| Provider.FinalizedStateProvider.GetLastFinalized | finality-gadget/rpc/provider/finality_state_provider.go:113-118 | the stored height |
| Provider.FinalizedStateProvider.SetLastFinalized | finality-gadget/rpc/provider/finality_state_provider.go:120-127 | the stored height becomes the larger of the two, nothing else changes |
| Provider.FinalizedStateProvider.BlockByNumber | finality-gadget/rpc/provider/finality_state_provider.go:217-253 | the cached block lookup in place; an answered block is in the cache afterwards |
| Provider.FinalizedStateProvider.QueryAllFpBtcPubKeys | finality-gadget/rpc/provider/finality_state_provider.go:407-446 | the provider list, answered without a call exactly when it is not empty and at most 240 seconds old |
| Provider.FinalizedStateProvider.GetBlockHeightByTimestamp | finality-gadget/rpc/provider/finality_state_provider.go:487-525 | the cached BTC height of a block in place |
| Provider.FinalizedStateProvider.QueryMultiFpPower | finality-gadget/rpc/provider/finality_state_provider.go:568-605 | the cached power map in place, keyed by BTC height alone |
| Provider.FinalizedStateProvider.QueryAllPkPower | finality-gadget/rpc/provider/finality_state_provider.go:607-645 | the three lookups in order, stopping at the first error |
| Provider.FinalizedStateProvider.QueryListOfVotedFinalityProviders | finality-gadget/rpc/provider/finality_state_provider.go:448-485 | the cached vote list in place |
| Provider.FinalizedStateProvider.QueryIsBlockBabylonFinalizedFromBabylon | finality-gadget/rpc/provider/finality_state_provider.go:356-405 | the whole check with its machine sums, nil block and nil list included, decides what the specification decides, without asking for votes when there is no power, and the caller's block has lost its `0x` |
| Provider.FinalizedStateProvider.QueryFinalizedBlockInBabylonByNumber | finality-gadget/rpc/provider/finality_state_provider.go:255-303 | one probe, finalized cache first |
| Provider.FinalizedStateProvider.QueryFinalizedBlockInBabylonFromTo | finality-gadget/rpc/provider/finality_state_provider.go:305-337 | the bisection with its updates of the stored height, total for every pair of heights |
| Provider.FinalizedStateProvider.QueryFinalizedBlockInBabylon | finality-gadget/rpc/provider/finality_state_provider.go:129-215 | the probe sequence and bisection, statement by statement, are the search all theorems are about |
| Delivery.DueInMeaning | finality-gadget/operator/block_handler.go:139-148 | the due list is strictly increasing and holds exactly the heights of its range that the interval admits |
| Delivery.ScanDelivers | finality-gadget/operator/block_handler.go:138-156 | one scan delivers exactly the due heights it passes, and stops at the first one that fails |
| Delivery.ExactlyOnce | finality-gadget/operator/block_handler.go:122-174 | over any ticks, heads and failures the delivered heights are exactly the due ones between the first and the present latest block, in order, no gap, no repeat |
| Delivery.ProcesserSeesEachDueOnce | finality-gadget/operator/block_handler.go:122-195 | over any stretch of a run a processer registered under one name is handed exactly the due heights of that stretch, once and in order, each with the block the node gave for it |
| Delivery.TickAsks | finality-gadget/operator/block_handler.go:122-157 | a tick asks for nothing if its head fails or is not above the latest block, and else only for due numbers strictly between the latest block and the head, in turn until one fails; the latest block ends as the last one answered, number and hash |
| Delivery.TickExact | finality-gadget/operator/block_handler.go:136-156 | a tick without error hands over exactly the due heights above the latest block and below the head |
| Delivery.RunAsks | finality-gadget/operator/block_handler.go:122-157 | every request of a run is for a number between the latest block and the head that its own tick had read |
| Delivery.RunEndsAtLast | finality-gadget/operator/block_handler.go:159-174 | after any run the latest block is the last one the node answered in it, number and hash |
| Delivery.TickResumes | finality-gadget/operator/block_handler.go:150-153 | after a failure at `k` all due heights below `k` are delivered and the next tick with a higher head asks for `k` first |
| Delivery.TickCatchesUp | finality-gadget/operator/block_handler.go:130-156 | an error-free tick leaves no due height below its head undelivered |
| Delivery.TickProgress | finality-gadget/operator/block_handler.go:138-156 | with work to do a tick shrinks the backlog unless its first request fails |
| Delivery.BacklogConserved | finality-gadget/operator/block_handler.go:122-174 | every delivery leaves the backlog below a fixed height, one for one |
| Handler.L2BlockHandler.AddProcesser | finality-gadget/operator/block_handler.go:47-54 | the registry gains or replaces one entry in place |
| Handler.L2BlockHandler.WithLatestBlock | finality-gadget/operator/block_handler.go:56-59 | the latest block is set, nothing else changes |
| Handler.L2BlockHandler.SetProcessedBlock | finality-gadget/operator/block_handler.go:61-64 | number and hash of the latest block are set together |
| Handler.L2BlockHandler.HandleBlock | finality-gadget/operator/block_handler.go:176-195 | each registered processer sees the block once for each of its names, in any order, whatever the others answer |
| Handler.L2BlockHandler.FetchBlock | finality-gadget/operator/block_handler.go:159-174 | one request: on an answer the block is handed on and becomes the latest, on an error nothing moves |
| Handler.L2BlockHandler.FetchBlocks | finality-gadget/operator/block_handler.go:122-157 | one tick in place is the tick the theorems are about, it asks only for numbers between the latest block and its head, and processers see the blocks of its requests |
| Handler.L2BlockHandler.RunTicks | finality-gadget/operator/block_handler.go:99-113 | any number of ticks in place is the run the theorems are about; a processer's list of seen blocks grows by exactly the due blocks between the latest blocks at its ends, once and in order, if it has one name |

## Left out

- Client construction, RPC and HTTP servers, metrics, logging, contexts and cancellation: input and output only.
- `finality-gadget/rpc/rpc.go`: routes the finalized tag to the search and forwards to the node.
- `finality-gadget/operator/fp` and `finality-gadget/client/eotsmanager`: assemblies around the Babylon libraries, which are not part of this model.
- `QueryEarliestActiveDelBtcHeight` and its cache: the only call is commented out.
- Block heights of 2^63 and above in the search: `int64(number)` has no meaning there; `Search.MidExact` gives the exact limit of the midpoint.
- L2 reorganisations and hash collisions: `OneChain` fixes one block for each height.
- QueryIsBlockBabylonFinalizedFromBabylon called directly with a block that is not the chain's: its contract covers it, but such a call may fill the caches with foreign entries, and the run theorems do not include it.
- Refinement.BracketsExactly: the only-if part asks for 66 free places in the vote cache, because a flush during the search would throw the stale list away and heal it.
- Runs.RunFallsExactly: a run is made of searches and waits; what a search answers at a head below the stored height is in `Refinement.LowHeadAnswers` and `Refinement.LowHeadExactly`, not in the comparison of results.
- Race.DeniedExactlyWhenPoised: a height whose cached list is stale is left out, because whether it is denied then depends on the heads still to come and on the flushes.
- The ticker, the goroutine and `initialize` of the block handler: a run is any number of ticks, and `WithLatestBlock` and `AddProcesser` come before it.
- Go's memory model: a lock section is one atomic step.
