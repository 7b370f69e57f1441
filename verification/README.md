# A verified model of the position, order-book and drain engines

This project models the parts of the SDK whose correctness is an argument over many steps rather than
over one function body, and proves what they promise for every input, every run and every reply.

- **Chain, Legs** – a wallet's NO and YES balances on the legs of one negRisk event, the two things the
  contracts can do to them (merge and convert), and the 256-bit index set naming a convert's legs.
- **Planner, Waste, Execution, PlanTheorems** – the planner as loops over a balance snapshot, what it
  withholds for want of a condition id, the on-chain meaning of each planned call, and the theorems
  about plans. Three facts carry them: a convert lowers `no - yes` by its amount on every leg; the
  potential `cash + sum(no) - max(0, max(no - yes))` is never raised by any legal step and is kept by
  every planned one; and what is withheld is kept by every planned step too.
- **GasChunks, Layout, Worlds, Executor** – packing calls into submissions, the flat balance read, several
  events at once, and the re-planning cycle over them against an arbitrary sequence of relayer replies.
- **Sweep** – the triage that decides which events deserve a cycle.
- **OrderBook** – the book under redundant delivery, and its two depth queries.
- **Redeem, Sides, Drain** – one redeem pass against the relayer's replies, what passes do to the two sides
  of one condition, and the drain loop with exactly what it leaves.
- **Cancels, SeenIds, Paging, Recycle** – cancel bookkeeping, bounded dedup, paging against a recycling API,
  and the phasing of scheduled reconnects.

A loop or an object of the source is a method or a class here, proved against a function of its inputs;
the theorems are about that function. Amounts are natural numbers, prices and sizes integers at a fixed
decimal scale. The relayer, the balance reads and the data API are parameters: a function from attempt
number to reply, so a theorem about a method covers every sequence of outcomes.

## Where the code differs from its documentation

- `plan_calls` says every call is also valid on its own against the pre-batch snapshot. That holds
  exactly when, at every step between neighbouring levels of remaining NO, each mergeable leg the cap
  cuts off already holds the YES of that step (`PlanTheorems.SnapshotValidIff`): always when no more legs
  than the cap have NO remaining (`PlanTheorems.WithinCapIsSnapshotValid`), never when such a leg holds
  no YES (`PlanTheorems.TruncationIsNotSnapshotValid`).
- The plan is optimal among all runs of merges and converts exactly when no leg without a condition id
  costs it anything: such a leg must hold one side only and must not be cut off by the leg cap
  (`PlanTheorems.PlanIsOptimalIff`). What it otherwise misses has a closed form
  (`PlanTheorems.ShortfallIsWaste`).
- `apply_delta` says replaying a tick that arrives on another connection is a no-op. It is one exactly
  when nothing later has changed what the tick put (`OrderBook.RedeliveryIsNoOpIff`): an immediate repeat
  always is, a copy still catching up rolls levels back (`OrderBook.StaleCopyRollsBack`). A fan-out still
  under way shows the front-runner's book exactly when no price was last touched by an event saying
  otherwise (`OrderBook.FrontRunnerBookIff`); complete copies always converge.
- `cancel_reason_is_terminal` says a live order is never dropped from tracking. In a singular round, which
  reads a transport error as a venue reason, that holds exactly when every request failed or no failed
  live order's error text reads as terminal (`Cancels.SingularRoundTracksIff`). A request answered with
  status 404 has such a text (`Cancels.NotFoundDropsALiveOrder`).
- `redeem_all` is described as draining the redeemable set to empty. Any run, capped or failing, drains the
  wallet exactly when every condition held above the floor at the start is served by the page-sets of the
  passes in which its call took effect; with no call failed, as when the relayer lands everything, and no
  cap reached, by the page-sets fetched (`Drain.RunDrainsIff`). Served means that some page-set names all
  its held sides; or each side worth redeeming alone is named by some page-set; or the first such side to be
  named has a redeem that takes both (`Sides.RedeemedIff`). Where page-sets name all held sides of a
  condition or none, served means named (`Drain.ServedWhenNamed`). So one uncut page-set naming everything
  drains the wallet (`Drain.OnePageDrains`), but a page-set cut at the offset cap that holds only dust ends
  the run before the rest is listed (`Drain.DustEndsTheDrain`), and a condition whose rows carry an outcome
  other than YES or NO is never named (`Drain.OtherOutcomesStayHeld`).
- A shard's redundant copies are described as exactly `period / redundancy` apart; the integer division
  makes that true if and only if `redundancy` divides the period (`Recycle.CopiesApart`).

## Model

| member | source | states |
|---|---|---|
| Legs.IndexSet | src/convert.rs:237-245 | the bitmap has exactly the positions of the given questions, one bit each when positions differ |
| Legs.IndexSetPopCount | src/convert.rs:237-245 | with distinct last bytes no bit is lost to the bitwise or |
| Chain.StepKeepsWorth | src/convert.rs:17-20 | whichever leg wins, no legal merge or convert changes cash plus payout |
| Chain.RunKeepsWorth | src/convert.rs:17-20 | nor does any run of them |
| Chain.StepPotential | src/convert.rs:17-20 | the potential never rises, and is kept unless a convert exceeds the largest excess of NO over YES |
| Chain.RunBound | src/convert.rs:17-20 | every run, in any order, over any legs and amounts, frees at most `sum(no) - max(0, max(no - yes))` |
| Planner.ClassifyEvent | src/convert.rs:540-566 | the merges and holdings of the zipped legs and pairs, in leg order |
| Planner.PlanTiers | src/convert.rs:584-622 | the loop over sorted distinct levels gives the tiers of the recursive definition, stopping at lone dust |
| Planner.PlanEvent | src/convert.rs:626-641 | proceeds are the merges plus one amount per converted leg beyond the first plus the compensating merges |
| Planner.PlanEventFromBalances | src/convert.rs:647-655 | the whole plan as a function of the snapshot, with the cap of 20 legs per convert |
| Planner.BuildConvertCall | src/convert.rs:228-264 | an error exactly without questions; otherwise the market is their shared id with a zero last byte, and the bitmap has the positions named and no other, one bit each when they differ |
| Execution.ConvertRoundTrip | src/convert.rs:237-264 | built and read back on chain, a convert burns exactly the legs named, each once |
| Planner.PlanCalls | src/convert.rs:675-703 | succeeds exactly when no tier is empty; merges first, each convert directly followed by its own merges |
| Planner.AllCallsAreWeighed | src/convert.rs:457-476 | every planned call carries its weight: 400 000 for a merge, 700 000 plus 175 000 per leg of its own event for a convert, up to the 64-bit limit |
| Execution.TierDecodes | src/convert.rs:237-264 | on chain a tier's bitmap means the first `maxLegs` legs at its level and no other, counted once each |
| Execution.TierPhase | src/convert.rs:438-451 | one tier's calls all go through, the compensating merges on YES minted by their own convert, and free its proceeds |
| Execution.DropIsLone | src/convert.rs:580-609 | the `break` drops a level of one leg only |
| Execution.PlanPhase | src/convert.rs:568-703 | the state a whole plan reaches, leg by leg, and that every call on the way keeps the potential |
| PlanTheorems.PlanIsFeasibleAndExact | src/convert.rs:657-703 | executing the calls in order never drives a balance below zero, every prefix included, and frees exactly `proceeds` |
| PlanTheorems.ProceedsBounded | src/convert.rs:624-641 | proceeds never exceed the NO held |
| PlanTheorems.ExtraYesIsHarmless | src/convert.rs:979-987 | YES the planner does not see, of a leg without a known YES token, never makes a call fail |
| PlanTheorems.PlanKeepsWorth | src/convert.rs:438-451 | no prefix of any plan moves value in any resolution |
| PlanTheorems.PlanEmptyIff | src/convert.rs:540-622 | a plan has no call exactly when nothing can be merged and nothing remains but lone dust |
| PlanTheorems.PlanIsFixpoint | src/convert.rs:570-574 | re-planning after a fully executed plan gives no call; one leg at most keeps more NO than YES, below the floor |
| PlanTheorems.NothingFreeable | src/convert.rs:17-20 | nothing can be freed exactly when no leg holds both sides and at most one holds NO |
| Waste.MergeKeepsWaste | src/convert.rs:17-20 | no merge changes what is withheld |
| Waste.ConvertKeepsWaste | src/convert.rs:584-618 | nor does a planned convert: NO of a cut-off leg without a condition id becomes a pair on it, one for one |
| PlanTheorems.ShortfallIsWaste | src/convert.rs:540-655 | proceeds fall short of the most that can be freed by exactly what is withheld, in closed form, whatever the floor |
| PlanTheorems.ProceedsAre | src/convert.rs:571-583 | proceeds equal the most that can be freed exactly when no leg without a condition id costs anything; with all ids known, whatever the leg cap and the floor |
| PlanTheorems.FreeableIsReached | src/convert.rs:17-20 | the bound is reached by some run |
| PlanTheorems.PlanIsOptimalIff | src/convert.rs:571-655 | no run frees more than the plan, exactly under that condition |
| PlanTheorems.LayerCake | src/convert.rs:568-622 | tier amounts are positive and add up to the top level done; the tiers burning a leg add up to its remaining NO below that level, less exactly what the cap cuts off of a leg without a condition id |
| PlanTheorems.SnapshotValidIff | src/convert.rs:665-671 | each call is valid alone on the snapshot exactly when each mergeable leg cut off at a level holds the YES of that step |
| PlanTheorems.WithinCapIsSnapshotValid | src/convert.rs:665-671 | which is so whenever no more legs than the cap have NO remaining |
| PlanTheorems.TruncationIsNotSnapshotValid | src/convert.rs:665-671 | a mergeable leg cut off by the cap and holding no YES always breaks it |
| GasChunks.Chunks | src/convert.rs:502-524 | nonempty contiguous ranges covering the list in order, within both budgets or alone, and as few as any such packing has |
| GasChunks.GreedyIsFewest | src/convert.rs:494-501 | a packing no range of which could take one call more uses the fewest submissions |
| GasChunks.BudgetIsTrueGas | src/convert.rs:514-517 | below the 64-bit limit the saturating accumulator is the true gas |
| Layout.BatchTokenIds | src/convert.rs:961-976 | NO then known YES per leg, as many as counted |
| Layout.QueryOrder | src/convert.rs:958-969 | leg by leg the query asks for NO, directly followed by YES when known |
| Layout.AnswerOrder | src/convert.rs:988-998 | and the answer is read from the same places, unknown YES as zero |
| Layout.UnpackBalances | src/convert.rs:983-1005 | fails exactly on a wrong length, otherwise the pairs of the layout |
| Layout.UnpackMulti | src/convert.rs:1009-1029 | fails exactly when the length differs from the summed token count |
| Layout.ReadBalancesMulti | src/convert.rs:1038-1066 | the combined read never fails on its own layout and gives every event its own pairs |
| Layout.ReadsBack | src/convert.rs:958-1029 | with distinct tokens what is read is what is held, but for YES of unknown tokens |
| Layout.RoundTrip | src/convert.rs:1038-1065 | unpacking the answer to the concatenated query gives every event its own pairs, unknown YES as zero |
| Executor.DedupBySlug | src/convert.rs:788-796 | first job per slug, in input order |
| Executor.KeptAreFirst | src/convert.rs:788-796 | the jobs kept are the first of their slugs, all of them, in the order queued |
| Executor.DedupGivesValidJobs | src/convert.rs:788-796 | the jobs kept are distinct events |
| Executor.QueuedAreKept | src/convert.rs:788-796 | every queued event keeps a job |
| Executor.SubmitWithBusyRetry | src/convert.rs:929-956 | returns the first reply that is not busy, or busy after exactly the allowed retries; nothing lands in between |
| Worlds.ShadowRun | src/convert.rs:979-987 | calls that go through on what a read shows go through on what is held, unknown YES included, and move no event's worth |
| Worlds.PreservedTotals | src/convert.rs:1115-1125 | freed cash plus what a fresh plan would free is the same before and after any planned calls |
| Executor.SubmitChunks | src/convert.rs:1198-1213 | the chunks that took effect, acknowledged or not, have run in order and nothing else has; it ends at the first reply that is neither a landing nor a busy wallet still to be retried |
| Executor.Round | src/convert.rs:1156-1223 | whatever the replies every event keeps its worth, and where tokens are known its potential and what is withheld; clean exactly when read and every chunk landed, and then nothing is left to plan |
| Executor.LandingCompletes | src/convert.rs:1229-1246 | a relayer that lands everything completes the cycle iff some round can be read |
| Executor.ProcessJobs | src/convert.rs:1126-1247 | up to three rounds, each running the chunks of a fresh plan that took effect; complete exactly when a readable round ran its whole plan; failed means every round was unreadable or met an error, blocked that the quota was refused; freed cash plus what a fresh plan would free is constant; completion leaves freeable exactly what was withheld at the start, so nothing iff no leg without an id cost anything |
| Sweep.LegSizes | src/sweep.rs:75-100 | accumulation through the token index equals the plain sum of each token's rows |
| Sweep.ClassifyEvent | src/sweep.rs:108-141 | counts, shares and minimum agree with the planner's merges and holdings |
| Sweep.TriageAgrees | src/sweep.rs:61-66 | an event is actionable exactly when its plan has a call |
| Sweep.Triage | src/sweep.rs:302-318 | the same from position rows to decision |
| OrderBook.Book.ApplySnapshot | src/book.rs:36-55 | both ladders replaced by exactly the nonzero levels given, the last of several at a price deciding |
| OrderBook.LadderHoldsLevels | src/book.rs:43-52 | a price is in the ladder iff some level names it with a nonzero size, and its size is the last such level's |
| OrderBook.Book.ApplyDelta | src/book.rs:65-75 | sets or removes one level of one side and tells whether the book changed |
| OrderBook.Book.AskPriceForSize | src/book.rs:84-95 | the first level whose cumulative depth covers the size, or the deepest; nothing only on an empty ladder; adjoint to the depth query on the same book |
| OrderBook.PriceDepthAdjunction | src/book.rs:77-106 | `price(need) <= p` iff `depth(p) >= need` for all `p`, exactly when `0 < need <= total` |
| OrderBook.DeepestWhenExhausted | src/book.rs:81-83 | beyond total depth the deepest level is returned |
| OrderBook.ReplayHasNoZero | src/book.rs:33-36 | no zero-size level ever exists |
| OrderBook.FanOutConverges | src/book.rs:57-64 | any interleaving of complete copies of a stream gives the book the stream gives once |
| OrderBook.ReplayAgreesIff | src/book.rs:57-64 | two deliveries of any events show the same book iff at every price their last touching events say the same |
| OrderBook.FrontRunnerBookIff | src/book.rs:57-64 | a fan-out under way shows the front-runner's book iff the last arrivals at the prices it touched say the same as its own last |
| OrderBook.RedeliveryIsNoOpIff | src/book.rs:59-61 | delivering an event again changes nothing iff all it put still stands |
| OrderBook.StaleCopyRollsBack | src/book.rs:59-61 | an input on which a repeated delta rolls a level back |
| Redeem.GroupRedeemable | src/redeem.rs:75-101 | groups in first-seen order, as defined row by row |
| Redeem.GroupIs | src/redeem.rs:84-96 | the last row decides a side's token, the first the redeem path |
| Redeem.SeenInOrder | src/redeem.rs:82-100 | conditions come in the order of their first rows |
| Redeem.BuiltAre | src/redeem.rs:109-132 | a redemption for exactly the groups held above zero and at or above the floor |
| Redeem.BuiltInOrder | src/redeem.rs:119-131 | one redemption per plannable group, in the groups' order, with the amounts held of its tokens |
| Redeem.CallsRoute | src/redeem.rs:228-252 | a redeem goes to the adapter or the CTF by the path its condition's first row names |
| Redeem.ReadAndPlanRedeem | src/redeem.rs:256-287 | planning from the chunked read is planning from the chain |
| Redeem.SubmitBatch | src/redeem.rs:398-420 | takes effect iff some submission of it does; accepted iff its last reply is a landing; given up only after every retry was refused |
| Redeem.BatchAttempts | src/redeem.rs:399-420 | a batch is attempted until one attempt lands or the retries are spent, each attempt begun where the last ended |
| Redeem.SubmitBatches | src/redeem.rs:390-430 | the calls go out in order in batches of the size asked for, all full but the last; every call is counted once, failed exactly when its batch's last attempt did not land; the calls that took effect, and no others, have emptied what they name |
| Redeem.FateIs | src/redeem.rs:398-429 | what is lost and what took effect, batch by batch |
| Redeem.FateCovers | src/redeem.rs:411-427 | every call is counted as failed or took effect |
| Drain.PassShrinks | src/redeem.rs:10-24 | a pass with one accepted batch leaves strictly fewer tokens held |
| Drain.RedeemAll | src/redeem.rs:333-385 | each pass is what its page-set, the balances and the replies make of it; ends at the first pass with nothing to plan, no progress, an uncut page-set or the cap; nothing fails when everything lands; drained iff every condition held is served where its calls took effect |
| Drain.LeftIsUnserved | src/redeem.rs:326-327 | below the cap, whatever the last page-set would still have redeemed was counted as failed |
| Drain.RunActs | src/redeem.rs:319-327 | any run does to each condition what its own listings say, pass by pass, where its calls took effect |
| Drain.CleanRunActs | src/redeem.rs:319-327 | below the cap and with nothing failed, what the page-sets fetched say |
| Drain.RunDrainsIff | src/redeem.rs:319-327 | any run drains the wallet iff every condition held above the floor at the start is served by the page-sets of the passes in which its call took effect, or, with nothing failed below the cap, by those fetched |
| Drain.ServedWhenNamed | src/redeem.rs:319-327 | where page-sets name all held sides of a condition or none, it is served iff one names it |
| Sides.RedeemedIff | src/redeem.rs:109-132 | passes leave dust of a condition iff it started as dust, or is named whole, or each side worth redeeming is named, or the first named takes both |
| Drain.UnreachedStays | src/redeem.rs:91-95 | a token no page-set names as YES or NO keeps its balance over the whole run |
| Drain.OnePageDrains | src/redeem.rs:319-382 | one uncut page-set naming all that is held, landed, drains the wallet |
| Drain.DustEndsTheDrain | src/redeem.rs:318-355 | a first page-set of dust ends any run with the rest untouched |
| Drain.OtherOutcomesStayHeld | src/redeem.rs:91-95 | a condition listed under other outcomes only is never redeemed |
| Drain.DustHidesTheTail | src/redeem.rs:318-355 | a run on a cut page-set of one unit leaves the hundred beyond it |
| Drain.OtherOutcomeIsSkipped | src/redeem.rs:91-95 | a run on an uncut page-set listing everything leaves it all |
| Cancels.TerminalWords | src/clob/poster.rs:824-837 | a reason with one of the seven words, in any case and anywhere, is terminal |
| Cancels.NotTerminal | src/clob/poster.rs:824-837 | a reason lacking a letter of each of them is not |
| Cancels.LimitsAreTransient | src/clob/poster.rs:1264-1279 | rate limits are retried |
| Cancels.OutagesAreTransient | src/clob/poster.rs:1264-1279 | so are outages, timeouts and resets |
| Cancels.PartitionCancels | src/clob/poster.rs:856-879 | done and retry split the batch; a transport error retries all |
| Cancels.SelectMembers | src/clob/poster.rs:843-855 | an item is done exactly when canceled or declined for a terminal reason |
| Cancels.SelectInOrder | src/clob/poster.rs:856-879 | both halves keep the batch's order |
| Cancels.CancelSingly | src/clob/poster.rs:764-797 | an error exactly when every request failed, then the first one; otherwise every cancellation, and a reason for every order some answer declined or whose request failed, the last such standing |
| Cancels.SinglySays | src/clob/poster.rs:774-788 | the merge names exactly the orders some request speaks of |
| Cancels.LastSingleWins | src/clob/poster.rs:779-782 | of several reasons for an order the last request's stands |
| Cancels.CancelInBatches | src/clob/poster.rs:884-895 | each chunk asked in turn and answered for its own ids; the first failing chunk's error, or all answers merged in order |
| Cancels.ChunksCover | src/clob/poster.rs:889 | the chunks are the ids in order, none empty, none over the venue's limit, all but the last full |
| Cancels.BatchRound | src/clob/poster.rs:856-895 | a failing chunk retries everything; otherwise a live order is dropped iff some chunk's answer calls one gone |
| Cancels.MergedSays | src/clob/poster.rs:891-892 | the merge names exactly the orders some chunk's answer names |
| Cancels.SingularPathTruthfulIff | src/clob/poster.rs:819-822 | the merge of singular answers is truthful iff no failed live order's error text reads as terminal |
| Cancels.SingularRoundTracksIff | src/clob/poster.rs:816-822 | a singular round keeps every live order tracked iff every request failed or no failed live order's text reads as terminal |
| Cancels.SingularRound | src/clob/poster.rs:764-880 | exactly what is dropped: nothing when every request failed, else the orders whose own answer has them gone or whose error text reads so; no live order among them under the condition above only |
| Cancels.NotFoundDropsALiveOrder | src/clob/poster.rs:718-722 | one request through and one answered 404 drop both orders, whatever the body |
| Cancels.LiveOrdersStayTracked | src/clob/poster.rs:813-818 | over any run of placements, fills and cancel rounds with a truthful venue, every live order stays tracked |
| SeenIds.Seen.Insert | src/ws/util.rs:156-167 | accepts exactly the ids outside the last `cap` accepted; the queue stays those ids in order, never more |
| SeenIds.HandledIsSpaced | src/ws/util.rs:137-167 | over any run, two handlings of one trade have at least `cap` others between them |
| SeenIds.HandleRun | examples/stream_user_fills.rs:36-45 | the gated loop handles the ids of the specification run |
| SeenIds.HandledWereFinal | src/ws/user.rs:69-78 | only trades some delivery of which was confirmed or failed are handled |
| SeenIds.ExactlyOnceIff | src/ws/util.rs:137-141 | each finalised trade is handled exactly once iff every repeat arrives within the window |
| SeenIds.SmallRunsAreExact | src/ws/util.rs:137-141 | in particular when at most `cap` trades finalise |
| Paging.AllPositions | src/data.rs:77-101 | every reachable row once and in order, in at most 21 requests |
| Paging.AllRedeemablePositions | src/data.rs:109-141 | no asset twice, every asset unless the cap is reported; ends with the first page that is short, at the offset cap or adds nothing, and reports the cap exactly when that page is full; with distinct assets exactly when the cap is reached |
| Recycle.OffsetInPeriod | src/ws/util.rs:34-43 | offsets lie in `(0, period]` |
| Recycle.FleetOffIff | src/ws/util.rs:30-42 | recycling is off exactly without an interval or a second connection |
| Recycle.MarketOffIff | src/ws/util.rs:55-70 | and in a market fan-out exactly without an interval, without a second copy, or beyond 255 connections |
| Recycle.RecyclesApart | src/ws/util.rs:34-43 | any two recycles of a fleet, over unboundedly many periods, are at least `period / total` apart |
| Recycle.MarketRecyclesApart | src/ws/util.rs:48-70 | the same for shards times redundant copies |
| Recycle.CopiesApart | src/ws/util.rs:50-54 | successive recycles of a shard's copies, also from the last copy to copy 0 of the next period, are `period / redundancy` apart to within 1 ns, exactly so iff it divides |

## Left out

- HTTP, WebSockets, timers and async scheduling: each submission, read and page is an outcome given as a parameter.
- Hashing, signing and ABI bytes: a call is a merge or a convert with its identifiers, index set and amount.
- Parsing of hex, decimal and JSON text: identifiers arrive parsed, or absent where the source skips them.
- Floating point and `Decimal` rounding: sizes and prices are exact integers at a fixed scale.
- The USDC.e wrap, approvals and split: they do not take part in planning.
- The background worker's channel, delays and per-job results; `fill_residual`.
- Fee and tick arithmetic, order signing and posting, maker-side derivation, open-order cursor paging.
- Executor.ProcessJobs: balances change by its own submissions only, a batch that landed has settled by the next read, and no token id is shared. For an event with a leg of unknown YES token only its worth and the validity of the calls are promised: YES minted on that leg is invisible to the next read.
- Planner: an event's legs are taken to be all its on-chain questions, and 256-bit amounts are unbounded; `PlanTheorems.ProceedsBounded` keeps the sums below the NO held.
- Drain.RedeemAll: an API or RPC error, which aborts the run, is not modelled; rows are assumed to name their own condition's tokens.
- Recycle: intervals so long that the nanosecond product overflows are not modelled.
- Cancels.PartitionCancels: a batch item is its order id.
- Drain.RunDrainsIff: no token is shared between conditions.
- Cancels.SingularRoundTracksIff: ids are distinct and each singular answer speaks of its own order only.
- Cancels: the concurrency of the singular cancels is a list of results in request order; the venue's answers are compared with the orders live once all have come in.
