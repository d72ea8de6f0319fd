# Order lifecycle and producer: a verified model

This project models the order lifecycle that `services/executor/main.py` and `services/monitor/main.py`
share through the database, and the catch-up loop of `scripts/engine_producer.py`, and proves what they keep
over every run. `dafny verify dfyconfig.toml` checks all of it.

## How the system is modelled

- `Prices`, `StopRules`, `Ladder`, `TickRules` hold the pure decisions: which side of a quote counts, what is
  reached, the latched best price, the stop rules, a waiting row's verdict, how a close is priced and named.
- `QuoteMeaning`, `CloseMeaning`, `PassMeaning`, `StopLadder` and `RiskLimits` say in quotes, levels, amounts and rows
  what those decisions come to, without the functions that take them.
- `Rows` is the shared schema. A table is a sequence and a row's id its index; rows are only appended.
- `Reconcile` is the monitor's pass over a trade's legs, as the loop it is (`Pass1`) and as the function the
  loop is proved equal to (`Visits`).
- `Book` is a transition system over three stores: the durable tables, the monitor's session (a working copy
  that a failed commit rolls back), and two tallies of what reached the broker. Its events are the executor's
  check and insert, the monitor's passes, edits and roll-ups, each write-ahead step of a deploy, every commit
  (applied, failed, or applied but reported failed), a crash and an escaping exception. Broker answers, prices,
  clocks and the interleaving of executor and monitor are arbitrary. A pass may be cut short: when announcing a
  close raises (services/monitor/main.py:1051), the leg's row is written, its tranche is not advanced and the rest
  of the tick is skipped.
- `Invariants` and `Steps` prove one invariant of every reachable world; `Safety`, `Closing`, `LinkRuns`, `Money`,
  `RollUps`, `StopRuns`, `Weaving` and `ToldStops` derive the theorems over runs.
- `Ratchet` is one leg's stop as a function of the ticks it saw. `StopRuns` proves that the rows follow it: it
  cuts a run into ticks, commits, rollbacks and events that touch no stop, and the tables then say what the
  ratchet makes of the ticks that became durable. A tick whose commit fails is forgotten with all it latched.
  `Weaving` proves that a run can be so cut when the executor inserts trades between a tick's latch, its pass and
  its stop moves, and when the process dies in mid-tick. `ToldStops` follows the stop the broker was told, which is
  not always the stored one, through the events of a run.
- `MonitorWorker.Monitor` and `ExecutorWorker.Executor` are the two services in their own imperative form. Each
  method extends a run of the transition system, so every theorem over runs holds of them, and says besides
  what it does to the session: what the broker answers is an argument, so the new state is a function of the old
  one and those answers wherever no commit fails and no exception escapes.
- `Fanout` is the executor's placement loop and `Restate` the batch restatement of the book. `Duality`, `MirrorTick`,
  `MirrorPass` and `MirrorDrive` are the BUY/SELL mirror of a decision, of a close, of the pass and the ratchet, and
  of a trade's whole turn. `Delivery` and `DeliveryWorker` are the queue, consumer and sweep, and `Producer` the
  engine producer with its ledger.

Prices, lots and money are reals; times are whole seconds (minutes in `Producer`). A fill of 0 means unknown.

## What the code does that its documentation does not say

- **Stale trade totals.** `RollUps.StaleTotal` is a run in which an exception after a close (publishing the
  trade event can raise, services/monitor/main.py:1051) skips the roll-up, the tick's commit keeps the closed
  leg, and the next tick closes the trade at services/monitor/main.py:721-726 without recomputing
  `realized_pl`. `RollUps.TotalIsRightExactly` gives the exact condition over every run: the stored total is what
  an earlier roll-up summed, or 0, and it is right iff the legs settled since then net to nothing
  (`RollUps.RolledUpExactly` and `RollUps.NeverRolledUp` for a given roll-up and for none). `RollUps.ClosedIsFinal`
  shows that a closed trade's total then stays as it is; `Restate.RestatementRepairs` shows `restate_book.py` is
  what repairs it.
- **A market order accepted but not filled is never looked at again.** Its leg is `pending`, which pass 1 does
  not handle, so its trade can never close and its risk counts for ever. `Closing.PendingHappens` is a run that
  ends so. It is the only such obstacle: from any point of any run, some continuation closes the trade iff none of
  its legs is durably `pending` (`Closing.CanCloseExactly`).
- **"1 position -> 1 leg" does not hold as the code stands.** The exact workingOrderId link
  (services/monitor/main.py:1163) does not ask whether the position is already linked, so a guess made for one
  leg can put the position on two. `LinkRuns.TwoLegsOnePosition` is a run that ends so, durably, with a truthful
  broker. Links stay unique exactly as long as no pass makes an exact link to a position already linked
  (`LinkRuns.UniqueExactly`, over every run), and from a sound state a pass breaks them exactly when one of its
  visits guesses a position that a later one links by its order (`Links.PassCollidesExactly`). It suffices that no
  guess takes another working leg's fill (`LinkRuns.OnePositionOneLeg`). That always holds with an adapter that
  keeps to the declared `Direction` type, because the comparison at services/monitor/main.py:849 then never
  matches and the fallback is dead (`Links.DeclaredDirectionsSafe`); the run needs an adapter outside it.
- **An interrupted tranche need not stay `deploying`.** The `break` after a failed per-leg commit falls through
  to the settling code. `Safety.OrphanHappens` is a run that ends with the tranche durably `deployed` and its
  accepted order unrecorded. Once the intent is durable, the tranche ends durably `deploying` iff the process died
  or its outcome was not committed: the settling commit failed, or there was none because the intent's commit was
  reported failed (`MonitorWorker.Monitor.DeployRung`). In every case it never waits again and has at most one
  unrecorded order (`Safety.OneOrphanPerTranche`).
- **The stop the broker was told last can loosen.** The stored stop never does, but a move the broker took is
  forgotten when its tick's commit fails, and the next tick improves on the older stored stop:
  `ToldStops.ToldLoosens` is such a run of two ticks. Over every run, the told stop is the session's unless a commit
  failed or the process died since the last move the broker took, and it is never looser than the session's or the
  durable stop (`ToldStops.ToldCovers`). An event loosens it iff a move was so lost and the event is the next move,
  to a stop looser than the lost one (`ToldStops.ToldLoosensExactly`). In terms of the rules, a whole tick loosens it
  iff a move was lost, the broker takes moves on the tick, some rule offers to improve on the stop rolled back to, and
  every such offer is looser than the lost one (`ToldStops.TickLoosensExactly`; `StopRules.LoosensExactly` is the same
  for one evaluation).
- **The producer's "every minute or every fifteen" holds within the look-back.** When two runs are further apart
  than the window, the missed bars are lost and nothing else changes (`Producer.LedgerFoldsJudged`). The ledger is
  still the sequential one iff every signal of the sequential pass is at a bar that some run judged
  (`Producer.GapFreeExactly`).

## Model

| member | source | states |
|---|---|---|
| Safety.AtMostOnce | services/monitor/main.py:541-635 | over every run of ticks, rejections, failed commits and crashes, the monitor calls `place_order` at most once per leg, and never while the leg's tranche is durably waiting |
| Safety.OneOrphanPerTranche | services/monitor/main.py:555-657 | in every reachable durable state at most one order the broker accepted for a tranche lacks a durable reference |
| Safety.OrphanHappens | services/monitor/main.py:629-659 | the bound is met: a run whose commit fails after the broker accepted ends with the tranche durably deployed and such an order |
| Safety.RiskCapsHold | services/executor/main.py:877-913 | with the limits on, planned risk of open and partial trades is within the account cap and every symbol cap in every reachable state |
| Safety.DurableEvolves | services/monitor/main.py:286-315 | durable rows only evolve over time, whatever is committed, rolled back or lost in between |
| Safety.LegLifecycle | services/monitor/main.py:1120-1192 | a terminal leg is frozen, so its close, money and attribution are written once; links are permanent; the stop never loosens |
| Safety.ClosedIsQuiet | services/monitor/main.py:716-726 | a durably closed trade has no pending, working or open leg and no waiting tranche, and stays closed |
| Safety.SweepFindsNothing | services/monitor/main.py:1621-1672 | after any crash the start-up sweep selects no leg: no committed state holds a working leg of a closed trade |
| Safety.NoOrderAfterwards | services/monitor/main.py:1254-1308 | once nothing of a trade waits durably and no deploy of it is under way, no order is ever placed for it again |
| Safety.ClosedIsSpent | services/monitor/main.py:1318-1339 | a durably closed trade is in that situation, even when another trade's commit rolls the session back |
| Safety.PendingBlocksClose | services/monitor/main.py:594-602 | a leg that is durably pending stays so over every run, and its trade never closes |
| Closing.CanCloseExactly | services/monitor/main.py:1318-1339 | at any point of any run, some continuation durably closes the trade iff no leg of it is durably pending |
| Closing.PendingHappens | services/monitor/main.py:594-602 | a run from the empty tables whose rung is accepted at market without a fill ends with the leg durably pending, and no continuation closes its trade |
| Steps.StepKeeps | services/monitor/main.py:286-659 | every event of executor, monitor, commit and crash keeps the invariant |
| Steps.RunKeeps | services/monitor/main.py:1346-1356 | the invariant holds in every world of every run |
| Steps.IntentKeeps | services/monitor/main.py:541-557 | logging the intent and committing it, or failing to, keeps the invariant |
| Steps.IntentStarts | services/monitor/main.py:541-557 | once the intent is durable every leg left to place is staged, distinct and was never sent |
| Steps.PlaceKeeps | services/monitor/main.py:560-625 | a place_order call and its recording keep the invariant, whatever the broker answers |
| Steps.HandOverKeeps | services/executor/main.py:998-1208 | inserting a trade with its legs and tranches keeps the invariant while a deploy is in progress |
| Steps.CommitKeeps | services/monitor/main.py:303-315 | so does every commit, failed or not |
| Invariants.PassIsLocal | services/monitor/main.py:1120-1192 | a reconciliation pass evolves rows, keeps them well-formed and leaves closed trades quiet |
| Invariants.OpenRiskFalls | services/monitor/main.py:130-132 | the monitor never raises open risk |
| Links.RestingOnlyExpires | services/monitor/main.py:1119-1155 | over a whole pass a never-linked leg whose order rests ends expired iff it is visited and overdue, else unchanged, and no visit of it consumes a transaction |
| Links.CloseMoney | services/monitor/main.py:940-1032 | a close books the amount of the leg's own unconsumed transaction, as a loss if the leg was stopped out and with the row's sign if not; it is estimated only when no row is left for it, and otherwise carries no money |
| CloseMeaning.SettleMeans | services/monitor/main.py:954-1032 | where a close is put, what it is called and what it is worth, in prices: from the tolerance short of the target on at the target, likewise at the stop, else at the live price; named by the broker, or by the level it is near, or by the sign of its amount |
| CloseMeaning.VisitCloses | services/monitor/main.py:1133-1192 | every leg that a visit closes is closed so, on the one history row the visit consumed or on none |
| CloseMeaning.BetterPriceCloses | services/monitor/main.py:976-986 | a better live price never gives a worse close, and a close is between the stop and the target |
| PassMeaning.WorkingVisit | services/monitor/main.py:1121-1187 | a working leg is left alone while its order rests in time and expired after; gone from the book it is opened on the position its order became, or on the first unclaimed one, or closed without money on the first loose history row, or cancelled; and its row advances with it |
| PassMeaning.OpenVisit | services/monitor/main.py:1188-1192 | an open leg is left alone while its position is listed, and closed when it is gone, on the first unused row of that position |
| Links.PassEvolves | services/monitor/main.py:1119-1192 | the pass only evolves legs and touches only the legs it visits |
| Links.PassTranches | services/monitor/main.py:775-795 | resolving legs only moves their own tranches, and never back to waiting |
| Links.PassKeepsLinks | services/monitor/main.py:1158-1179 | one pass keeps one leg per position, given truthful listings and no guess that takes another working leg's fill |
| Links.VisitKeepsLinksExactly | services/monitor/main.py:1158-1179 | one visit keeps links unique and open legs off other working legs' fills iff its guess, if any, is no such fill |
| Links.PassCollidesExactly | services/monitor/main.py:1158-1169 | a pass leaves one leg per position iff no visit guesses a position that a later visit links by its own order |
| Links.GuessThenExact | services/monitor/main.py:1163-1169 | whenever a leg guesses the fill of the order of a leg visited next, one position ends on both legs |
| LinkRuns.TwoLegsOnePosition | services/monitor/main.py:830-851 | a run with a truthful broker ends with one position durably on two open legs |
| LinkRuns.UniqueExactly | services/monitor/main.py:1163-1169 | over every run with a truthful broker, links are unique up to a world iff no pass before it linked a leg by its order to a position already linked |
| LinkRuns.StepUniqueExactly | services/monitor/main.py:1163-1169 | one event, of executor, monitor, commit or crash, breaks uniqueness iff it is such a pass |
| Links.DeclaredDirectionsNeverGuessed | services/monitor/main.py:840-851 | positions typed with the declared Direction are never claimed by the fallback |
| Links.DeclaredDirectionsSafe | packages/core/beacon_core/brokers/types.py:34-40 | so with such an adapter the proviso holds of every pass |
| LinkRuns.OnePositionOneLeg | services/monitor/main.py:830-851 | over every run with a truthful broker in which no guess takes another working leg's fill, no two open or closed legs of any trades share a broker position |
| LinkRuns.RunKeepsLinks | services/monitor/main.py:742-747 | links stay unique, and each open leg on its own order, in the session and the durable tables |
| LinkRuns.DeclaredDirectionsTruthful | services/monitor/main.py:840-851 | a pass over declared-direction listings is a truthful event |
| Money.NoTransactionTwice | services/monitor/main.py:861-897 | in every reachable state the auditable book over all trades is the sum of broker transactions under an injective map from legs to transactions, stop-outs counted as losses; it never exceeds what those rows say with their own signs |
| Money.ExactCloseBooks | packages/core/beacon_core/analysis/broker_truth.py:106-130 | over every run each durably closed exact leg books the amount of a closing row of its own position, never a gain when it was stopped out |
| Money.PaidIsBounded | packages/core/beacon_core/analysis/broker_truth.py:106-130 | the book is what the unstopped legs booked less the amounts of the stop-outs, which are never negative |
| Money.RunTraced | services/monitor/main.py:965-1021 | every exactly attributed close of a run is settled by a row of the broker's history |
| Money.BookIsPaid | services/monitor/main.py:1322-1331 | the per-trade sums add up to what those rows paid |
| RollUps.ClosedIsFinal | services/monitor/main.py:1318-1339 | a durably closed trade and its legs never change again, so its total is right for ever or wrong for ever |
| RollUps.OnlyAPassUnsyncs | services/monitor/main.py:1322-1331 | only a pass of the trade, or rolling its roll-up back, can put its stored total out of step |
| RollUps.RollUpBooks | services/monitor/main.py:1322-1331 | a committed roll-up leaves the durable total right until the trade's next pass |
| PassMeaning.RollUpMeans | services/monitor/main.py:1318-1339 | a roll-up stores the sum of what the legs book and closes the trade iff no leg is live and no row waits; partial iff some leg is closed |
| RollUps.TotalIsRightExactly | services/monitor/main.py:1322-1331 | over every run the durable total is what some roll-up of the trade summed, or 0, and is right iff what settled since nets to nothing |
| RollUps.RolledUpExactly | services/monitor/main.py:1322-1331 | after the trade's latest roll-up was kept by a commit, the durable total is right iff what settled since that roll-up nets to nothing |
| RollUps.NeverRolledUp | services/monitor/main.py:716-726 | a trade that was never rolled up stores 0, which is right iff its legs net to nothing |
| RollUps.StepSince | services/monitor/main.py:1322-1331 | how the two stored totals follow every event, commit and rollback |
| RollUps.StaleTotal | services/monitor/main.py:716-726 | a run after which a closed trade's stored total omits its winnings for ever |
| Ratchet.NeverLoosens | services/monitor/main.py:1201-1238 | a leg's stop never moves back over any run of ticks, from any start |
| Ratchet.StopIsTightest | services/monitor/main.py:1219-1232 | whatever the rules, the stop is the tightest of the initial one and all stops asked for on ticks whose move the broker took |
| Ratchet.MfeRemembers | packages/core/beacon_core/strategy/rules.py:166-195 | the latched price remembers exactly the levels known at the start or seen by some tick of the run of ticks |
| Ratchet.HitIsEverHit | services/monitor/main.py:1194-1198 | the TPs a tick evaluates its rules on are exactly those known at the start or found reached by some tick |
| Ratchet.ClosedForm | services/monitor/main.py:1201-1238 | with TP rules the stop is the tightest of the initial one and the places (the entry, a number, a TP, the TP before) where the rules of all TPs reached by the last tick whose move was taken put it, or the initial one if there is none |
| Ratchet.ScheduleIndependent | services/monitor/main.py:800-828 | two polling schedules that ever hit the same TPs end on the same stop |
| StopLadder.StopInNumbers | services/monitor/main.py:1201-1238 | for any rules the stop is the tightest of the one at the start and all places where a rule set off on a taken tick put it: by its TP ever hit, by a move of so many points in favour, or of so many times the signal's own risk |
| StopLadder.LadderHolds | packages/core/beacon_core/strategy/rules.py:20-25 | the documented ladder: the stop is the tighter of the initial one and, for the highest TP ever hit, the entry if it is TP1 and the TP before it otherwise |
| StopLadder.MoveLocksEntry | packages/core/beacon_core/strategy/rules.py:76-85 | a lone rule on a move of so many points has the stop at the entry iff some taken tick had the price that far in favour and that is tighter |
| StopLadder.RLocksEntry | packages/core/beacon_core/strategy/rules.py:86-96 | the same on a move of r times the distance of the signal's own stop |
| StopRules.NewStop | packages/core/beacon_core/strategy/rules.py:72-141 | the engine's stop is where some rule that is set off puts it, improves on the current one, and no such place that improves is tighter; `Asks` says in prices when a rule is set off and where it puts the stop |
| StopRules.Evaluate | packages/core/beacon_core/strategy/rules.py:128-141 | the engine's loop computes that stop |
| StopRules.LoosensExactly | packages/core/beacon_core/strategy/rules.py:128-141 | a move is looser than the stop told before iff something improves on the stored stop and nothing asked for is as tight as the told one |
| StopRuns.ReviewIsTick | services/monitor/main.py:812-1238 | simulation: latched price, TPs closed on and stop as the rows have them after a tick's latch, pass and ratchet are one ratchet step from what they were, for every leg of the trade, whatever is inserted meanwhile |
| StopRuns.BrokenIsTick | services/monitor/main.py:1346-1356 | a tick broken off by an exception is a ratchet step with no move taken |
| StopRuns.EventActs | services/monitor/main.py:286-315 | every other event of the order book is a commit, a rollback, or touches no stop |
| Weaving.WovenActs | services/monitor/main.py:812-1238 | a tick's latch, pass, exception and single stop moves, interleaved with whatever the executor checks and inserts, are together one tick of its trade |
| Weaving.SegmentsChart | services/monitor/main.py:1346-1356 | every run made of such ticks, of ticks the process died in, and of any other events that move no stop is cut into ticks, commits, rollbacks and rest |
| StopRuns.RunTracks | services/monitor/main.py:286-315 | over every run so cut, tables and session say of a leg what the ratchet makes of the ticks that became durable and of those the session still has |
| StopRuns.DurableStop | services/monitor/main.py:1201-1238 | over every run so cut, the durable stop is the tightest asked for by durable ticks, and with TP rules the closed form over the durable ticks |
| ToldStops.ToldCovers | services/monitor/main.py:286-315 | over every run the stop the broker took last is the session's, or a commit failed or the process died since and the session is back on the durable stop; it is never looser than either |
| ToldStops.ToldIsStored | services/monitor/main.py:1226-1238 | so unless a move was lost the broker holds the session's stop |
| ToldStops.ToldLoosensExactly | services/monitor/main.py:1226-1238 | over every run, an event loosens the told stop iff a move was lost before it and it is the next move, to a looser stop |
| ToldStops.TickLoosensExactly | services/monitor/main.py:1219-1238 | a whole tick of any run, with the executor at work in it, loosens the told stop iff a move was lost before, moves are taken on the tick, and everything offered beyond the stop rolled back to is looser than the lost one |
| ToldStops.ToldLoosens | services/monitor/main.py:1226-1245 | a run of two whole ticks with a failed commit between them, on which the broker is told 105 and then 100 |
| Duality.TickMirrors | services/monitor/main.py:390-421 | reflecting prices and swapping sides maps every trigger, latch, hit, close price, outcome, estimate and stop of a tick to its mirror |
| Duality.NewStopMirrors | packages/core/beacon_core/strategy/rules.py:72-141 | the rule engine commutes with the mirror for every rule list |
| MirrorTick.CloseOfMirrors | services/monitor/main.py:954-1032 | a close is mirrored to a close with the same outcome, money and attribution, given a broker tolerance |
| MirrorTick.JudgeMirrors | services/monitor/main.py:473-536 | a waiting row gets the mirrored row's verdict |
| MirrorTick.StopForMirrors | services/monitor/main.py:1219-1224 | the ratchet's stop for the mirrored leg is the mirror of the leg's |
| MirrorPass.PassMirrors | services/monitor/main.py:1119-1192 | a whole pass over mirrored legs, positions and prices links, closes, expires and cancels the same legs on the same positions and transactions |
| MirrorPass.ReviewedMirrors | services/monitor/main.py:812-1238 | latch, pass and ratchet of a tick on the mirrored tables are the mirror of what they are on the tables |
| MirrorDrive.DriveMirrors | services/monitor/main.py:327-659 | the ladder drive on the mirrored tables leaves the mirror of exactly what it may leave on the tables: the same row fires, expires, deploys or waits |
| MirrorDrive.TickedMirrors | services/monitor/main.py:812-1339 | so does a whole tick with its rule-cancel, ladder and roll-up, which books the same money |
| MirrorDrive.TurnMirrors | services/monitor/main.py:709-1343 | and a trade's turn, whether it is closed, skipped without a price, broken off by an exception or run to its roll-up |
| Reconcile.FilledBy | services/monitor/main.py:747-747 | the position created from a working order, if any listed one was |
| Reconcile.Guess | services/monitor/main.py:840-851 | the fallback takes an unclaimed position on the epic and direction, and misses none |
| Reconcile.TxnByDeal | services/monitor/main.py:874-884 | an unconsumed closing row of exactly this position, and misses none |
| Reconcile.MatchTxn | services/monitor/main.py:958-963 | a linked leg is only ever matched to a row of its own position |
| Reconcile.LinkFor | services/monitor/main.py:1163-1163 | a filled order's position is its own by workingOrderId, or else one nobody holds |
| Reconcile.Pass1 | services/monitor/main.py:1119-1192 | the loop over the legs computes the specification `Visits`, up to the first close that cannot be announced, whose tranche it leaves alone |
| Ladder.EffectiveEntryTtl | packages/core/beacon_core/config.py:66-73 | the entry TTL is clamped to 1..480 minutes, so it is never off |
| TickRules.RetiredMeans | packages/core/beacon_core/execution/strategy.py:112-140 | nothing is retired before a fill or with the flag off; out of the market nothing is left waiting |
| Ladder.Judge | services/monitor/main.py:473-536 | a rung deploys iff the side that would trade is at its level, down at it for a BUY entry and up at it for a target, and the entry is not over age; a row past its time expires; nothing past its TTL is kept |
| QuoteMeaning.VerdictOnQuote | services/monitor/main.py:390-405 | which rungs deploy and which rows time out, on the raw quote: the offer for a BUY entry, the bid for a BUY target, the other way round for a SELL, and the tick's price for a side that is not quoted |
| Ladder.BetterStillDeploys | packages/core/beacon_core/execution/ladder.py:345-362 | a price further in the favoured direction never turns a deploy into anything else |
| Ladder.FiresWhen | services/monitor/main.py:411-441 | a cancel row fires iff its level is touched and some leg of the trade is open or closed |
| Ladder.DriveMeans | services/monitor/main.py:406-659 | one drive: with a cancel row due one of them fires and nothing is placed, otherwise every waiting row is deployed as the broker answered, timed out or left |
| QuoteMeaning.TickDrives | services/monitor/main.py:1311-1315 | the same of every whole tick of a staged trade |
| Ladder.FireMeans | services/monitor/main.py:442-470 | exactly what a fired cancel row changes: it is filled, the other waiting rows withdrawn with their unplaced legs, the resting orders the broker lets go cancelled |
| Ladder.FiredLeavesNothing | services/monitor/main.py:442-470 | so nothing of the trade waits or rests that the broker lets go, and legs in the market are untouched |
| QuoteMeaning.LatchIsFurthest | services/monitor/main.py:800-828 | the latched price is the furthest in the trade's direction of the price, the latch before and the candle's extreme less half the spread |
| QuoteMeaning.HitsAre | services/monitor/main.py:1194-1198 | a TP counts as hit iff the latched price is at or beyond the level of its last leg, or a leg of it closed there |
| PassMeaning.RetiredMeansRows | services/monitor/main.py:1254-1296 | exactly which orders and rows the rule-cancel retires, and when |
| Ladder.DrivenNotStale | services/monitor/main.py:515-536 | nothing a drive leaves waiting is older than the entry TTL |
| Ladder.FiredLeavesNone | services/monitor/main.py:442-470 | after a cancel row fired nothing of the trade waits |
| Ladder.DrivenNext | services/monitor/main.py:473-659 | driving one more row keeps the outcomes of the earlier ones |
| MonitorWorker.Monitor.Resume | services/monitor/main.py:1676-1684 | a process started over the tables any run of executor and monitor left, wherever it stopped, continues that run after a crash |
| MonitorWorker.Monitor.CommitNow | services/monitor/main.py:286-315 | the session becomes durable, or is rolled back to what is |
| MonitorWorker.Monitor.LogIntent | services/monitor/main.py:541-557 | the intent is durable before any broker call, and on failure nothing will be placed |
| MonitorWorker.Monitor.PlaceLeg | services/monitor/main.py:577-635 | one broker call, its answer recorded on the leg and committed at once: a market order open at its fill or pending without one, any other order resting, a refused one rejected |
| MonitorWorker.Monitor.PlaceAll | services/monitor/main.py:560-635 | exactly the first `tried` legs of the rung are sent, once each and in order, all of them unless a commit fails or the process dies, and all but perhaps the last are recorded with the broker's answers |
| MonitorWorker.Monitor.SettleTranche | services/monitor/main.py:640-657 | refused when the broker took none, armed when it took a stop order, deployed otherwise |
| MonitorWorker.Monitor.DeployRung | services/monitor/main.py:541-659 | nothing is sent unless the intent is durable; then the tranche ends durably deploying iff the process died or its outcome was not committed, and otherwise says what the broker took of the orders sent |
| MonitorWorker.Monitor.GiveUpStaged | services/monitor/main.py:446-451 | exactly the unplaced legs of a row are given up |
| MonitorWorker.Monitor.FireCancel | services/monitor/main.py:442-470 | the cancel row is filled, all other rows withdrawn with their unplaced legs, and the trade's resting orders cancelled where the broker lets go |
| MonitorWorker.Monitor.FiringRow | services/monitor/main.py:411-441 | a cancel row fires only when its level is hit and some leg is open or closed |
| MonitorWorker.Monitor.DriveRows | services/monitor/main.py:473-659 | each waiting row gets its verdict's outcome and nothing else changes |
| MonitorWorker.Monitor.DriveStaged | services/monitor/main.py:327-659 | unless a commit failed: with a cancel row touched one fires, which leaves no row waiting and places nothing; otherwise a touched rung is deployed, and no row is left waiting past its TTL |
| MonitorWorker.Monitor.LatchMfe | services/monitor/main.py:812-828 | the latched price reaches exactly the levels that were reached by the latch before, the tick's price or its candle; it covers the price and never walks back |
| MonitorWorker.Monitor.ReconcileLegs | services/monitor/main.py:1119-1192 | the session becomes the specification's result for this snapshot, up to the first close that cannot be announced |
| MonitorWorker.Monitor.MoveStops | services/monitor/main.py:1201-1238 | each live leg's fill heals and its stop is what the rules want where the broker takes the move; no other leg changes |
| MonitorWorker.Monitor.RetireStale | services/monitor/main.py:1254-1296 | exactly the listed orders the broker lets go are cancelled and their tranches settled, and out of the market every waiting row is withdrawn |
| MonitorWorker.Monitor.ManageLegs | services/monitor/main.py:812-1296 | latch, pass, ratchet and retirement in this order, each as specified; or exactly what was done before the close that could not be announced, or before the failing read after the pass |
| MonitorWorker.Monitor.RollUpTrade | services/monitor/main.py:1318-1339 | the total is the auditable sum, and the trade closes iff nothing of it is left |
| MonitorWorker.Monitor.ProcessTrade | services/monitor/main.py:709-1343 | a tick that reaches its roll-up with its commits applied is latch, pass, ratchet, retirement, drive and roll-up; a stopped-out tick places nothing |
| MonitorWorker.Monitor.Tick | services/monitor/main.py:1346-1356 | every trade managed at the start is still managed when its turn comes and gets its whole tick there unless a commit fails in it; then one commit, and the session equals the durable state |
| ExecutorWorker.Executor.CheckLimits | packages/core/beacon_core/execution/guard.py:62-113 | a trade may be inserted iff trading is not halted and, with the limits on, the day's loss has not reached the daily limit, its risk is within its share of that and both caps hold, against what is durable now; the reason given is a bound that is broken |
| RiskLimits.ChecksWithin | services/executor/main.py:877-913 | over every run each draft that was let through was within all four bounds when it was checked, and trading was not halted |
| RiskLimits.AllowedExactly | packages/core/beacon_core/execution/guard.py:62-113 | and no draft within them, or with the limits off and not halted, is ever blocked |
| RiskLimits.BetterIsAllowed | packages/core/beacon_core/execution/guard.py:62-113 | a better day, a smaller risk or less exposure never turns "allowed" into "blocked" |
| ExecutorWorker.Executor.ExecuteOnAccount | services/executor/main.py:877-1208 | a blocked or uncommitted execution changes nothing; a committed one appends the trade, its legs and its tranches, all lots accounted for, and the trade can then be closed some day iff the broker left none of its market orders unfilled |
| Fanout.RetryPlan | packages/core/beacon_core/execution/placement.py:75-120 | a refused leg is retried at market only when a resting order was crossed, and with a target only if that is beyond the entry and no further out |
| Fanout.Placement | services/executor/main.py:1060-1102 | a second order is sent iff the first was refused in a way the plan recovers, and it is the same trade at market or with a nearer target |
| Fanout.PlaceWithRetry | services/executor/main.py:1060-1102 | the attempt loop ends with exactly that order and answer |
| Fanout.RowOfMeans | services/executor/main.py:1030-1162 | a leg is held iff it waits for a trigger and placed iff its last order was taken and recorded: open or pending by whether a market order filled, working otherwise, on the reference the broker named, with a fill of 0 as unknown; it keeps its planned size and stop |
| Fanout.PlaceOne | services/executor/main.py:1030-1162 | one leg's row and number of tries, for every answer of the broker; pending iff a market order was taken without a fill |
| Fanout.LotsConserved | services/executor/main.py:1023-1162 | placed, refused and held lots add up to the planned lots |
| Fanout.BuildTranches | services/executor/main.py:1176-1203 | one tranche per trigger with its legs and the level of the first leg planned for it, deployed for the signal rung and waiting otherwise, then one waiting row per cancel that has a level, and no other |
| Fanout.CancelRowsMean | services/executor/main.py:1194-1203 | a row waits for a cancel level iff the ladder has that cancel, and owns no legs |
| Fanout.HeldIsOwned | services/executor/main.py:1176-1203 | in a ladder exactly the held legs are owned by a waiting tranche |
| Fanout.LadderIsGood | services/executor/main.py:1167-1203 | the tranches own disjoint sets of the new legs |
| Fanout.FanOutLegs | services/executor/main.py:1023-1203 | the whole loop: every leg's outcome, placed counts and lots, conservation, and a hand-over the monitor's protocol can start from |
| Restate.Update | scripts/restate_book.py:54-68 | the update in place: the new table is the restated one and the count is that of the rows that change |
| Restate.LastRestatementWins | scripts/restate_book.py:54-68 | restating is idempotent, and `all` after `auditable` is `all` |
| Restate.ReportAddsUp | scripts/restate_book.py:36-50 | auditable plus excluded is reported |
| Restate.SameTotal | packages/core/beacon_core/execution/attribution.py:99-105 | the script's auditable total and the monitor's sum are one |
| Restate.RollUpIsFixpoint | services/monitor/main.py:1322-1331 | restating what a roll-up stored changes nothing |
| Restate.RestatementRepairs | scripts/restate_book.py:54-60 | after a restatement a total is right iff the trade has a priced leg or stored nothing |
| Restate.RestatedBook | scripts/restate_book.py:54-60 | a restated trades table adds up to the auditable book |
| Delivery.OneTradePerKey | services/executor/main.py:358-366 | at most one committed trade per signal and account, and one fanout beyond those lost before their commit |
| Delivery.RunAccounted | services/executor/main.py:243-329 | every fanout of every run is a trade, a loss or the one in flight |
| DeliveryWorker.Executor.HandleNext | services/executor/main.py:243-329 | one popped message touches only its own signal; when nothing fails it is dropped if executed, gets its gate's status, or ends executed with a trade on every account that wants one |
| DeliveryWorker.Executor.PlaceOn | services/executor/main.py:358-366 | one account: at most one trade added, none on a duplicate, and one when wanted and nothing fails |
| DeliveryWorker.Executor.FanOut | services/executor/main.py:320-329 | the signal is marked executed only after every account |
| DeliveryWorker.Executor.Drain | packages/core/beacon_core/bus.py:101-124 | draining without failures settles every queued signal |
| DeliveryWorker.Executor.Sweep | services/executor/main.py:1231-1255 | a batch of the stranded signals, as large as the cap allows, is put before the queue, each once, and nothing leaves it |
| DeliveryWorker.SweptAre | services/executor/main.py:1231-1255 | what is swept: validated signals without a trade and of more than a minute's standing, fifty at a time or all there are |
| DeliveryWorker.Executor.Recover | services/executor/main.py:1226-1273 | from any reachable state sweeps and clean drains leave no signal validated and tradeless, in a bounded number of rounds |
| DeliveryWorker.StillStranded | services/executor/main.py:1238-1255 | a round un-strands its whole batch and strands nothing new |
| Producer.Rejudged | scripts/engine_producer.py:72-91 | a bar an earlier pass ruled on never emits again |
| Producer.PassExtendsFold | scripts/engine_producer.py:126-167 | a pass over any window that starts at or before the frontier extends the sequential fold |
| Producer.CadenceIndependent | scripts/engine_producer.py:23-25 | overlapping, interrupted and dry runs without a gap leave the ledger of one sequential pass |
| Producer.LedgerFoldsJudged | scripts/engine_producer.py:94-168 | with any gaps the ledger is the sequential fold of exactly the bars that were judged |
| Producer.GapFreeExactly | scripts/engine_producer.py:23-25 | for every schedule, series and cap: the ledger is the sequential one iff every sequential signal is at a judged bar; where every bar emits, iff there is no gap |
| Producer.GapsCount | scripts/engine_producer.py:94-168 | a schedule has no gap iff it judged every bar up to its frontier |
| Producer.CapsAgree | packages/core/beacon_core/generator/producer.py:51-65 | seen from a later bar, the caps seeded from the ledger are the caps of the sequential pass |
| Producer.ClosedBars | packages/core/beacon_core/generator/producer.py:68-93 | the newest closed bars, never one still forming |
| Producer.Worker.JudgeBar | scripts/engine_producer.py:130-164 | one bar is ruled as specified, with the reason it yields no signal, or its row failed to commit and nothing changed |
| Producer.EvaluateGives | packages/core/beacon_core/generator/producer.py:51-125 | why a bar yields no signal: the day's limit before the pause after the last signal, and both before a plan that cannot be drawn |
| Producer.Worker.RunOnce | scripts/engine_producer.py:94-168 | one run, interrupted anywhere, is one wake of the schedule the theorems are about; a completed one reports as many signals as it wrote |

## Left out

- Broker HTTP, Redis, SQLAlchemy, Telegram, health servers, logging, notifications and AI review: only their
  success, failure and crash outcomes are kept.
- Sizing, FX, the ladder planner, cluster allocation, the soft-loss breaker and trade filters: the sized legs and
  the planned risk are inputs.
- Activity audit, structure recompute, digests, deployed-risk telemetry and the dark arm: reporting beside the
  trading path.
- The stuck-deploy detector (services/monitor/main.py:364-379): it writes a reason text and an event, no state.
- Row reasons, events, timestamps of closes and the tranche's own order reference: nothing the model decides
  depends on them.
- A crash of the executor between its first placement and its commit inside `Book`: an insert is one event there,
  and orders lost that way are counted in `Delivery` instead.
- Interleaving of the executor with the middle of a monitor method: covered by the events of `Book`, and for the
  stops by `Weaving`, not by the two classes, which each run alone.
- Resumption of a partial fanout, and absorption of skipped or blocked signals: the code does not give them.
- Float and Decimal rounding, and text parsing of broker errors: a recognised complaint is an input.
- MirrorTick.CloseOfMirrors: with no broker tolerance the code takes a fraction of the target's price, which no
  reflection keeps, so a tolerance is assumed.
- MirrorPass.ReviewedMirrors: assumes a broker tolerance, and fills and quotes inside the range, for the reasons
  given for `MirrorTick.CloseOfMirrors` and `Duality.TickMirrors`.
- MirrorDrive.TurnMirrors: makes the same assumptions, and that the fills the broker confirms are inside the range.
- Duality.TickMirrors: assumes quotes and fills strictly inside the mirrored range, because 0 reads as missing.
- MonitorWorker.Monitor.ProcessTrade: the times at which orders and outcomes are stamped are arbitrary.
- Safety.OneOrphanPerTranche: counts the orders the broker acknowledged; a `place_order` that raised may have
  placed one too, which no row and no count would show.
- MonitorWorker.Monitor.DriveStaged: reads of the tables inside the driver do not fail. The code catches such an
  error and goes on to the roll-up; `Book` covers what is left then, because each of its edits is an event.
- MonitorWorker.Monitor.ManageLegs: reads of the tables do not fail except right after the pass; elsewhere in the
  tick the same holds.
- A staged trade without its staged-entry row: the executor writes them together, so the pass always finds the
  tranches of a leg it resolves.
- StopRuns.DurableStop: assumes that the source's rules and initial stop stay the same while the leg is open, and
  starts once its fill is known. It is about runs cut at the ends of ticks, so not about a run that ends in mid-tick.
- ToldStops.TickLoosensExactly: also assumes that the leg's fill is known and that the tick's rules are the plan's.
- ToldStops.ToldCovers: counts the moves the broker acknowledged; one that raised may have been taken too, and the
  code then keeps the older stop.
- LinkRuns.OnePositionOneLeg: assumes that a broker's listing is truthful, that its ids are new when issued and
  that a closed position is not listed again.
- RiskLimits.ChecksWithin: the day's realized result is an argument; the query behind it is not modelled.
