# A verified model of one hand of mahjong

This project models one hand of mahjong as the repository plays it, and the layers
around it that must agree: the rules engine, the table manager that drives it with
four adapters, the record and its replayer, the browser client that follows along from
projected events, the deterministic shuffle, the unseen-tile counts, the seat session's
pending prompt, the rate limiter and the match score. Everything is proved with Dafny
4.11; `dafny verify dfyconfig.toml` checks it.

**How it is built.** Code that computes values is a function; code that changes things in
place is a method of a class or a method with a loop, verified against such a function,
and the theorems are about the functions.

| files | what they hold |
|---|---|
| Tiles, Lists, GameTypes | tile tokens and their orders, list operations, the state |
| FisherYates, Rng | the byte stream, rejection sampling, the shuffle |
| Legality, Transition, Scoring, Deal, DealOrder | what is legal, how each action is carried out, the settlement, the deal and who gets what in it |
| Engine | the same as the program runs it: clones changed in place, lists filled by loops |
| Invariant, Outcomes, Reachable | the invariant of a hand, what each action does and leaves alone, and what holds in every reachable state |
| Records, Manager, HandRunner | record events, the manager's steps, and its loops as they run |
| Safety, Decisions, Strikes, FailureLog | progress, legality of everything applied, termination, contention, what is played for whom, replacement, the record of failures |
| Replay, ReplayLegal, ReplayStream | the replayer, the round trip, records of any origin, the replay viewer |
| Views, Client, Reducer, DrawView, Simulation | projections, the browser's reducer (as functions and as it runs), the simulation proof |
| Privacy, Secrecy | what a decision needs to know, and what a viewer is never told |
| Belief, MatchScore, Session, Limiter | the counts, the scoreboard, the pending prompt and its timers, the limiter |

**Main results.** The invariant of a hand is kept by every legal action, no legal action
can fail, and no other is accepted (`Invariant.ApplyActionKeepsInvariant`); hence all 144
tiles are conserved and hands keep their shape in every reachable state. What an action does
is stated by its effect, completely: one state has it (`Outcomes.OutcomeIsComplete`). Driven
by arbitrary adapters the manager only ever applies legal actions; exactly which behaviour it
does not absorb is known (`Safety.StepSucceeds`, `Safety.RunFailsOnlyOnFaults`), and without
that it finishes within 236 iterations (`Replay.HandEnds`). A seat nobody plays keeps its hand
over any run (`Decisions.AbsentSeatKeepsHand`).
Replaying the record the manager wrote gives back exactly the states it went through
(`Replay.RecordReplays`), and a browser client fed the projected record shows the server's
board to every viewer, never learning of a flower drawn after the deal
(`Simulation.ClientTracksHand`; both combined `ReplayStream.ViewerShowsReplay`, and on the
objects that change in place `ReplayStream.PlayAndShow`). What a viewer may not see makes no
difference to what it is sent (`Secrecy.RunsSendTheSame`). The shuffle is a bijection between
choice vectors and orderings, sampling is unbiased, the unseen pool is exact, prompts are
resolved at most once under every interleaving, and the limiter refines a plain count.

**Reading the model.** A tile is its position in the canonical order. The fan calculator
and SHA-256 are arbitrary functions in the `Rules` record. An adapter is what it answers to
each prompt (an action, a value that is no action, a mapping or not and JSON or not, a
timeout, an exception of either kind, or nothing ever) and how its observe calls end; a
script of such replies, four per iteration, is the adversary. Because the manager gathers
every decision of a step before it applies anything, its coroutines are sequential steps.
Exceptions are the `Err` values of `Result`. Sessions step from await to await, in any order.

**Where code and documentation disagree** the code is followed.

- The docstring of the replayer (mahjong/records/replay.py:1-38) lists no claim resolution for
  an exposed kong; the event constructor writes one (mahjong/records/diff.py:66-67), and the
  replayer handles it.
- The comment at mahjong/table/manager.py:205 says a DISCARD phase without a drawn tile should
  not happen; it is the ordinary state after a PENG or CHI
  (`Strikes.ClaimerDefaultIsFirstPlay`).
- The failure handler is documented to absorb every adapter failure
  (mahjong/table/manager.py:716-723). Four things get past it and abort the hand: a reply that
  `dict(action)` at line 733 refuses, a mapping that the record writer cannot serialise
  (mahjong/records/writer.py:25), a CancelledError, and a call that ignores its cancellation.
  The last two get past the observe fan-out as well. `Safety.StepSucceeds` and
  `Safety.RunFailsOnlyOnFaults` state exactly when a step and a run go through.
- The limiter's docstring allows a key only while it has fewer than max events; with max
  below one the first event of an untracked key is let through. `Limiter.AnswerIsCount` and
  `Limiter.SweepChangesNoAnswer` give the exact conditions.
- The finally block of `decide` is entered only after the PROMPT is sent; a cancellation before
  that leaves the prompt outstanding (`Session.CancelFreesSlot`).

## Model

| member | source | states |
|---|---|---|
| `Tiles.TokenValid` | mahjong/engine/tiles.py:32-48 | a string is accepted as a tile token if and only if it is the token of one of the 42 tiles |
| `Tiles.TokenInjective` | mahjong/engine/tiles.py:19-29 | two different tiles never share a token |
| `Tiles.OneCanonicalOrder` | mahjong/web/static/apply_event.js:39-51 | the engine's sort key, the client's own sort key and the canonical order agree on every pair of tiles, so both sides sort a hand into the same list |
| `Tiles.TokenRankOrdersTokens` | mahjong/engine/legality/discard.py:38-49 | the order in which legal actions list tiles is string order of the tokens, which is not the canonical order |
| `Tiles.TokensByName` | mahjong/engine/tiles.py:19-29 | the tokens as strings: suits W, B and T with ranks 1 to 9, F1 to F4 for East to North, dragons J, flowers H |
| `Tiles.BuildCanonicalTileSet` | mahjong/engine/tiles.py:51-65 | the section and rank loops build the 144-tile list whose position i holds tile i/4 below 136 and a flower from there on |
| `Tiles.CanonicalCopies` | mahjong/engine/tiles.py:51-65 | the canonical set holds four copies of each of the 34 playable tiles and one of each of the eight flowers |
| `Lists.SortIsTheOnlySort` | mahjong/engine/transition/__init__.py:139-141 | sorting by the canonical key has only one possible result, whatever sorting algorithm is used |
| `Lists.CheckConcealedSorted` | mahjong/engine/types.py:266-282 | the check accepts a token list exactly when it is the token list of some sorted hand |
| `Rng.RngBytes` | mahjong/engine/rng.py:21-45 | the block loop returns the bytes of one stream from the cursor on; bad arguments are refused, a read of nothing is empty, and a block number past 128 bits is an overflow |
| `Rng.StreamCoherence` | mahjong/engine/rng.py:37-45 | a read split in two anywhere, across any block boundary, gives the bytes of the whole read, and one fails exactly when the other does |
| `Rng.BlocksInOrder` | mahjong/engine/rng.py:37-45 | 32 bytes read at a block boundary are the hash of the seed and that block's number |
| `Rng.BytesNeededIsMinimal` | mahjong/engine/rng.py:60-62 | a try reads enough bytes to reach every result, and one byte fewer would not do |
| `Rng.BytesAreNumbers` | mahjong/engine/rng.py:67 | strings of b bytes are recovered from their big-endian values, which lie below 256^b |
| `Rng.MostSignificantFirst` | mahjong/engine/rng.py:67 | the first byte of a chunk counts most: b times 256 to the number of bytes behind it |
| `Rng.NumbersAreBytes` | mahjong/engine/rng.py:67 | every value below 256^b is the value of a string of b bytes |
| `Rng.SamplerIsUnbiased` | mahjong/engine/rng.py:60-69 | every residue has exactly threshold / n accepted raw values, and more than half of all raw values are accepted |
| `Rng.SampleIsFirstAcceptedTry` | mahjong/engine/rng.py:64-69 | a result is returned if and only if some try k is the first accepted one inside the stream, the value is that try's residue, and the cursor has moved by exactly k + 1 tries |
| `Rng.UniformInt` | mahjong/engine/rng.py:48-69 | the rejection loop ends for every hash function, because the stream does, and returns the first accepted try's residue and cursor, or the error of the read that failed |
| `Rng.ShuffledWall` | mahjong/engine/rng.py:72-84 | the in-place swap loop over a fresh canonical set gives the wall of the seed, with the cursor after the last draw |
| `Rng.WallIsDeck` | mahjong/engine/rng.py:72-84 | whatever SHA-256 returns, a wall is a permutation of the canonical set and is the shuffle by some vector of valid swap choices |
| `Rng.WallIsSampled` | mahjong/engine/rng.py:72-84 | a seed's wall choice by choice: 143 samples, each read where the one before stopped, for 144, 143, ..., 2 results, are the swaps for positions 143 down to 1 of the canonical set; the stored cursor is where the last one stopped |
| `Rng.EveryWallIsPossible` | mahjong/engine/rng.py:72-84 | for every ordering of the 144 tiles and every seed there is a hash function that deals it |
| `Rng.ZeroHashShuffles` | mahjong/engine/rng.py:72-84 | there is a hash function for which every 128-bit seed has a wall |
| `FisherYates.LoopIsShuffle` | mahjong/engine/rng.py:81-83 | the downward loop of swaps computes the recursive shuffle that fixes the last position first |
| `FisherYates.ShufflePermutes` | mahjong/engine/rng.py:81-83 | a shuffle loses, duplicates and invents nothing |
| `FisherYates.EveryOrderingReached` | mahjong/engine/rng.py:81-83 | every ordering of the items is the shuffle by its own choices |
| `FisherYates.ChoicesRecovered` | mahjong/engine/rng.py:81-83 | for distinct items the choices can be read back from the ordering |
| `FisherYates.ShuffleIsBijection` | mahjong/engine/rng.py:81-83 | for distinct items, of any number, the reached lists are exactly the permutations and each comes from exactly one choice vector with j_i in [0, i] |
| `FisherYates.ShuffleIsNatural` | mahjong/engine/rng.py:79-84 | a deck with equal tiles is shuffled as its positions are, so the bijection is one on orderings of positions |
| `Deal.TakeLiveTile` | mahjong/engine/state.py:76-88 | the draw loop sets flowers aside until a playable tile comes, and runs off the wall exactly when only flowers are left |
| `Deal.DealInitialState` | mahjong/engine/state.py:69-134 | thirteen rounds of draws and the dealer's extra one, with the state they lead to or the first failing draw |
| `Deal.DealIsTotal` | mahjong/engine/state.py:69-134 | for every permutation of the canonical set and every dealer the deal succeeds, uses 53 to 61 tiles from the front of the wall, gives 14 tiles to the dealer and 13 to the others with no flower concealed, and establishes the invariant |
| `DealOrder.DealtInTurn` | mahjong/engine/state.py:69-93 | for every wall: the deal succeeds exactly if there are 53 playable tiles and stops behind the 53rd; every tile before is with the seat whose turn it was, thirteen rounds from seat 0 and the dealer once more, in its sorted hand or among its flowers in order; the last one is the dealer's drawn tile |
| `DealOrder.OpeningTable` | mahjong/engine/state.py:94-134 | the dealer is East and on turn, South, West and North sit behind it in order, the round wind is East, and nothing is on the table |
| `Replay.SeedDeals` | mahjong/engine/state.py:40-74 | a seed deals a state satisfying the invariant, unless it is no 128-bit number or its stream runs out |
| `Replay.HeaderShowsWinds` | mahjong/table/manager.py:351-375 | the HEADER shows every seat's wind as it was dealt |
| `Legality.LegalActionsMembers` | mahjong/engine/legality/__init__.py:14-28 | for every state, seat and action the list contains the action if and only if the rules as stated by the predicate Legal allow it |
| `Legality.LegalActionsInOrder` | mahjong/engine/legality/__init__.py:14-28 | the list has no repetition and one order: plays and kongs by their tokens as strings, PASS, PENG, kong, runs from the lowest up, HU last |
| `Legality.SelfDrawNeedsScore` | mahjong/engine/legality/discard.py:67-93 | a self-draw may be declared exactly when the hand has 3n + 2 tiles and the calculator scores the sorted rest of it with the drawn tile, by the seat's own wind and without flowers |
| `Legality.DiscardWinNeedsScore` | mahjong/engine/legality/claim.py:81-105 | a discard may be won exactly when it is another seat's, the hand has 3n + 1 tiles and the calculator scores it with the discard |
| `Legality.ChiActionsMembers` | mahjong/engine/legality/claim.py:61-78 | the runs offered are exactly the three-tile runs of one suit that contain the discard and whose other tiles are in hand |
| `Legality.ClaimActionsMembers` | mahjong/engine/legality/claim.py:19-58 | what a seat may do about a discard, both directions: PENG with two copies, an exposed kong with three and a wall, a run for the next seat only, HU on a scoring hand |
| `Legality.DiscardActionsMembers` | mahjong/engine/legality/discard.py:16-64 | what the seat on turn may do, both directions: any held tile, a kong of four, a fourth tile for its own PENG, HU on the tile actually drawn |
| `Engine.ListDiscardActions` | mahjong/engine/legality/discard.py:16-64 | the list-building loops give the list of legal turn actions in token order, kongs behind plays and HU last |
| `Engine.ListChiActions` | mahjong/engine/legality/claim.py:61-78 | the loop over the three offsets gives the legal runs in ascending order |
| `Engine.ListClaimActions` | mahjong/engine/legality/claim.py:19-58 | the list-building branches give PASS, PENG, kong, runs and HU in that order |
| `Engine.ListLegalActions` | mahjong/engine/legality/__init__.py:14-28 | dispatch on the phase; no action in a terminal state |
| `Engine.GameState.Draw` | mahjong/engine/transition/__init__.py:125-148 | the popping loop moves flowers to the seat, the first playable tile into its sorted hand, and ends the hand on a wall of nothing but flowers; all other fields are as before |
| `Engine.GameState.AdvanceToNextSeat` | mahjong/engine/transition/__init__.py:116-122 | the seat behind the discarder draws, with the window's fields cleared |
| `Engine.GameState.OpenClaimWindowOrAdvance` | mahjong/engine/transition/__init__.py:77-105 | a window opens with every seat's claims in seat order if there is any, else the next seat draws |
| `Engine.Discard` | mahjong/engine/transition/play.py:12-20 | on a clone: the new object holds the state after the discard or the same error is raised, and the input object is unchanged |
| `Engine.DeclineClaim` | mahjong/engine/transition/pass_.py:16-21 | on a clone: only the passing seat's claims go, and the last one to go closes the window; the input object is unchanged |
| `Engine.ClaimPeng` | mahjong/engine/transition/claim.py:16-37 | on a clone: two tiles leave the hand, the discard leaves its pile, the meld and the turn pass to the claimer; the input object is unchanged |
| `Engine.ClaimRun` | mahjong/engine/transition/claim.py:40-64 | the same for a run, whose called tile is not taken from the hand |
| `Engine.ExposedKong` | mahjong/engine/transition/gang.py:28-48 | the same for three tiles and the discard, followed by a replacement draw |
| `Engine.ConcealedKong` | mahjong/engine/transition/gang.py:51-64 | four tiles become a kong and a replacement is drawn |
| `Engine.AddedKong` | mahjong/engine/transition/gang.py:67-81 | the first PENG of the tile becomes a kong with its provenance kept, and a replacement is drawn |
| `Engine.DeclareWin` | mahjong/engine/transition/hu.py:25-87 | scores move by the settlement, and the terminal records winner, tile, payer, fan and deltas; the drawn tile, never another, is the winning tile of a self-draw |
| `Engine.Act` | mahjong/engine/transition/__init__.py:25-66 | illegal actions are refused, legal ones dispatched, and the input object is never changed |
| `Invariant.DrawKeeps` | mahjong/engine/transition/__init__.py:125-148 | a draw after any settled action re-establishes the whole invariant, by a fourteenth tile or by an exhausted hand |
| `Invariant.PlayKeeps` | mahjong/engine/transition/play.py:12-20 | a discard always succeeds for a tile in hand and keeps the invariant, whether or not a window opens |
| `Invariant.PassKeeps` | mahjong/engine/transition/pass_.py:16-21 | a PASS keeps the invariant, whether or not it closes the window |
| `Invariant.PengKeeps` | mahjong/engine/transition/claim.py:16-37 | a legal PENG cannot fail and keeps the invariant |
| `Invariant.ChiKeeps` | mahjong/engine/transition/claim.py:40-64 | a legal CHI cannot fail, moves exactly the two supporting tiles, and keeps the invariant |
| `Invariant.GangExposedKeeps` | mahjong/engine/transition/gang.py:28-48 | a legal exposed kong cannot fail and keeps the invariant, also when its replacement draw exhausts the wall |
| `Invariant.GangConcealedKeeps` | mahjong/engine/transition/gang.py:51-64 | the same for a concealed kong |
| `Invariant.GangAddedKeeps` | mahjong/engine/transition/gang.py:67-81 | the same for an added kong; its assertion never fails |
| `Invariant.HuKeeps` | mahjong/engine/transition/hu.py:25-87 | a legal HU passes its assertions, its list removal and its settlement, and keeps the invariant |
| `Invariant.ApplyActionKeepsInvariant` | mahjong/engine/transition/__init__.py:25-66 | from any state of the invariant an action succeeds and keeps it if it is legal, and is refused as illegal if it is not; nothing else can happen |
| `Outcomes.DrawOutcome` | mahjong/engine/transition/__init__.py:125-148 | a draw, completely and by its effect: the flowers in front of the first playable tile join the drawer's flowers, that tile its sorted hand, the drawer is on turn, and nothing else changes; one state satisfies this, the one the draw returns |
| `Outcomes.ClaimsNamed` | mahjong/engine/transition/__init__.py:87-113 | the pending claims of a fresh window are the one list that names, seat by seat and in order, every claim some seat may make and no other |
| `Outcomes.OutcomeIsComplete` | mahjong/engine/transition/__init__.py:25-66 | for every legal action the state it leads to is exactly the one with its stated outcome: which tiles move where, the window or the draw that follows, turn, phase and settlement, everything else as it was |
| `Outcomes.TurnPassesOn` | mahjong/engine/transition/__init__.py:116-122 | an unclaimed discard, at once or after the last PASS, gives the draw and the turn to the seat behind the discarder, and changes no other hand or flowers |
| `Reachable.MovesKeepInvariant` | mahjong/engine/transition/__init__.py:25-66 | any sequence of moves by any seats succeeds exactly when each move is legal when it is made, and then ends in a state of the invariant |
| `Reachable.ReachableStatesAreGood` | mahjong/engine/transition/__init__.py:25-66 | every state reachable from any seed and dealer by legal actions satisfies the invariant |
| `Reachable.TilesAreConserved` | mahjong/engine/transition/__init__.py:125-148 | in every reachable state the multiset of wall, hands, melds, discards and flowers is the canonical 144-tile set, and drawn count plus wall is 144 |
| `Reachable.HandsHaveShape` | mahjong/engine/types.py:266-282 | in every reachable state a seat has 13 tiles counting three per meld, 14 when it is on turn or won by self-draw; hands are sorted and flower-free, melds well formed and at most four; what the phase's fields mean |
| `Reachable.WindsGoRound` | mahjong/engine/state.py:97-101 | in every reachable state the dealer is East, the winds go round the table in order, and the round wind is East |
| `Reachable.PendingClaimsExact` | mahjong/engine/transition/__init__.py:87-103 | in every reachable window each seat has pending either exactly the claims the rules allow it on the discard, or none once it has passed |
| `Scoring.SearchTiers` | mahjong/engine/scoring.py:53-63 | the search loop finds the first tier that reaches the total, else the last one |
| `Scoring.LookupX` | mahjong/engine/scoring.py:53-63 | the points come from a tier all of whose predecessors are too low, and which reaches the total or is the last |
| `Scoring.ComputeScoreDelta` | mahjong/engine/scoring.py:32-50 | the accumulation loops of both schemes debit each loser its payment and credit the winner with all of them |
| `Scoring.ScoreDeltaZeroSum` | mahjong/engine/scoring.py:32-119 | for every winner, fan total, win type, payer and configuration of either scheme the four deltas sum to zero |
| `Scoring.OfficialPays` | mahjong/engine/scoring.py:66-93 | the official scheme seat by seat, for any bases: every loser of a self-draw pays the fan and its base; on a discard win the discarder pays the fan and its base, the others theirs; the winner gets it all |
| `Scoring.HouseTablePays` | mahjong/engine/scoring.py:96-119 | a house table seat by seat, for any tiers and multipliers: each_mult times the tier's points from every loser of a self-draw, dealer_in_mult times from the discarder and other_mult times from each other loser of a discard win |
| `Scoring.DefaultSchemePays` | mahjong/engine/scoring.py:66-93 | the default scheme seat by seat: a self-draw collects total + 8 from everyone, a discard win total + 8 from the discarder and 8 from the others |
| `MatchScore.MatchScore.RecordHand` | mahjong/table/match_score.py:54-58 | the totals are updated in place and a snapshot of them is appended; totals stay the sums, and series[i] the prefix sums, of the hands recorded |
| `MatchScore.TotalsAreLineSums` | mahjong/table/match_score.py:41-58 | a seat's total is the sum of its own deltas over all hands |
| `MatchScore.MatchIsZeroSum` | mahjong/table/match_score.py:24-58 | engine-produced hands are never taken for malformed ones, and after every hand of a match the totals sum to zero |
| `Safety.DefaultIsLegal` | mahjong/table/manager.py:194-209 | for every prompt in every state of the invariant the default action exists and is legal |
| `Decisions.DefaultsSpelledOut` | mahjong/table/manager.py:194-209 | which action the default is: PASS in a window, on turn the tile just drawn, and for a claimer, who drew none, the tile of its hand whose token comes first |
| `Strikes.ClaimerDefaultIsFirstPlay` | mahjong/table/manager.py:205-209 | after every PENG or CHI the claimer's default is the first legal PLAY, so the branch its comment calls unexpected is an ordinary one |
| `Safety.DecisionIsLegal` | mahjong/table/manager.py:715-734 | a decision exists exactly for an AutoPassAdapter and for the answers the failure handler absorbs, else the step ends with that answer's own error; it is always legal, a failed one is the default, and all but a reply that is no JSON can be recorded |
| `Decisions.AnswersDecide` | mahjong/table/manager.py:715-734 | a legal answer is played as it is; an illegal one, a reply that is no action, a timeout and an exception are played as the default, with the failure they are recorded as; an AutoPassAdapter plays the default without one |
| `Decisions.TurnApplied` | mahjong/table/manager.py:483-518 | on a turn exactly the decision of the seat on turn is applied, and its events recorded |
| `Decisions.AbsentSeatDiscardsDraw` | mahjong/table/manager.py:194-209 | a seat that fails or is absent on its turn discards the tile it has just drawn: it keeps the hand it had before the draw, and the DISCARD says that the tile is not from the hand |
| `Decisions.WindowApplied` | mahjong/table/manager.py:521-617 | in a window either every claimer passes and the next seat draws, or the most urgent decision alone, a win of the lowest seat first, is applied to the state all were made in |
| `Decisions.AbsentSeatKeepsHand` | mahjong/table/manager.py:403-438 | over any run, whatever the others do, a seat played by an AutoPassAdapter keeps its hand and melds, but for the tile drawn while it is on turn |
| `Safety.ContentionIsBetweenWins` | mahjong/engine/legality/claim.py:39-49 | in every claim window at most one seat can PENG or GANG and only the next seat can CHI |
| `Safety.PriorityPicksRightWinner` | mahjong/table/manager.py:617-633 | the winner is the lowest seat with HU, else the sole PENG or GANG, else the sole CHI, and there is none exactly when everyone passes |
| `HandRunner.PickWinner` | mahjong/table/manager.py:623-633 | the nested loops with early return pick the winner of the priority rule |
| `Safety.AllPassCloses` | mahjong/table/manager.py:669-701 | a window of passes goes through exactly if every failure mark can be written; then each PASS is legal when applied, the window stays open until the last claimer's and closes exactly there |
| `Safety.StepSucceeds` | mahjong/table/manager.py:483-617 | a manager step succeeds if and only if every prompted adapter answers, times out, raises an Exception or replies with a mapping that is JSON, and every observe call returns; it then keeps the invariant in every state on the way and brings the hand strictly closer to its end |
| `Safety.FaultAborts` | mahjong/table/manager.py:726-733 | each other answer of the seat on turn aborts the hand with its own error: no mapping for dict(action), no JSON for the writer, CancelledError past except Exception, a call that never returns for the watchdog |
| `Safety.RunFailsOnlyOnFaults` | mahjong/table/manager.py:403-438 | a run fails if and only if some iteration it reaches meets such an adapter, and then with one of these errors; for any adapters it fails in no other way |
| `Safety.RunEnds` | mahjong/table/manager.py:403-438 | with adapters that give absorbable answers and let observe return, every run succeeds and is over within 2 * wall + concealed + 1 iterations |
| `Safety.HandEndsWithin236Steps` | mahjong/table/manager.py:403-438 | a hand dealt from any shuffle is over within 236 iterations |
| `Safety.RunPrefix` | mahjong/table/manager.py:403-438 | stopping after k iterations gives a prefix of the log and of the states, so statements about all runs hold at every moment of a run |
| `Replay.HandEnds` | mahjong/table/manager.py:293-462 | for every seed, dealer and such adapters the hand is dealt unless the wall cannot be shuffled, ends in a terminal state, and its record starts with the HEADER and closes with a FOOTER |
| `Replay.HandsExist` | mahjong/table/manager.py:293-462 | the theorems are not empty: with a hash function that lets every wall be shuffled, every seed, dealer and fan calculator has a hand that is played to its end |
| `Strikes.StepCounts` | mahjong/table/manager.py:704-712 | no seat is struck beyond the limit, a seat that reaches it is replaced, and a replaced seat stays replaced and is struck no more |
| `Strikes.RunCounts` | mahjong/table/manager.py:403-438 | the same over whole hands |
| `Decisions.StrikesAreForFailures` | mahjong/table/manager.py:704-712 | a seat is struck once for each prompt it fails and for nothing else, and is replaced exactly when a prompt leaves it with as many strikes as the limit |
| `Decisions.TurnMarks` | mahjong/table/manager.py:483-518 | the first event of a turn carries what went wrong, if anything, and whether an AutoPassAdapter decided; no other event does |
| `Decisions.WindowMarks` | mahjong/table/manager.py:521-617 | a window's record begins with every claimer's decision in seat order, each with its own marks; what the window leads to carries none |
| `FailureLog.StepMarks` | mahjong/table/manager.py:503-518 | the strikes a step gives a seat are the failure marks it writes for that seat: on the discard of a failed turn, on the decision of a failed claim, won or lost or passed window alike |
| `FailureLog.StrikesAreLogged` | mahjong/table/manager.py:403-438 | over a whole run the failure marks in its log are, seat by seat, exactly the strikes given |
| `FailureLog.HandFailuresRecorded` | mahjong/table/manager.py:293-462 | in the record of a dealt hand, HEADER and FOOTER included, a seat's failure marks are its strikes, at most what it takes to lose the seat, all of them only if it was replaced, and none if it was never filled |
| `HandRunner.HandRunner.WriteAll` | mahjong/records/writer.py:23-26 | the events are appended one by one up to the first whose failure mark is no JSON, and all of them if there is none |
| `HandRunner.FanOut` | mahjong/table/manager.py:253-290 | the fault is that of the first adapter, not replaced, whose observe call does not return |
| `HandRunner.HandRunner.OneStep` | mahjong/table/manager.py:403-438 | one iteration: the step of the phase, whose events go to the adapters seated when it began |
| `HandRunner.HandRunner.PlayTurn` | mahjong/table/manager.py:483-518 | the discard step: decision, strike, apply, marked events, swap; the object's new state is the function's or its error is raised |
| `HandRunner.HandRunner.PassAll` | mahjong/table/manager.py:669-701 | the loop over the claimers with its break, event by event |
| `HandRunner.HandRunner.AwardClaim` | mahjong/table/manager.py:575-613 | every claimer's decision is logged before the winner's action is applied, and the duplicate of the winner's decision is dropped but a leading HAND_END is not |
| `HandRunner.HandRunner.CloseWindow` | mahjong/table/manager.py:521-617 | the claim step: all decisions first, strikes, one winner or all passes, swaps |
| `HandRunner.HandRunner.Loop` | mahjong/table/manager.py:403-438 | the main loop appends exactly the log and states of the run |
| `HandRunner.PlayHand` | mahjong/table/manager.py:293-462 | from the deal to the FOOTER: final state and record are those of Replay.RunHand, which the theorems are about |
| `Records.BuildWindowEvent` | mahjong/records/diff.py:263-288 | the nested loops list every seat's opportunities in seat order, with chi tiles or the tile |
| `Records.BuildEvents` | mahjong/records/diff.py:21-88 | appending branch by branch gives the events of the transition, in order |
| `Records.WindowOffers` | mahjong/records/diff.py:263-288 | CLAIM_WINDOW offers every seat exactly what it may do about the discard |
| `Records.DiscardSaysWhence` | mahjong/records/diff.py:94-111 | a DISCARD is said to come from the hand unless it is the tile its seat has just drawn |
| `Records.ResolutionSays` | mahjong/records/diff.py:136-160 | a resolution describes itself: the winner, the claim, the called tile of a triplet or kong, the whole run |
| `Records.EventsStamped` | mahjong/records/diff.py:21-88 | every event of a transition carries the turn and phase it led to |
| `Records.SettlementSays` | mahjong/records/diff.py:185-218 | HAND_END repeats the terminal and lays each seat's hand, melds and flowers open |
| `Replay.DecisionRoundTrip` | mahjong/records/replay.py:163-182 | reading back a logged decision gives the seat and the action it was made from |
| `Replay.OwnTurnReplay` | mahjong/records/replay.py:82-98 | the events of any turn action replay to exactly its state: plays with and without a window, kongs with and without a replacement tile, self-draw wins |
| `Replay.AllPassReplay` | mahjong/records/replay.py:97-132 | the buffered PASS decisions of a window replay, at the event that closes it, to the states the manager went through |
| `Replay.ContestReplay` | mahjong/records/replay.py:97-132 | of a contested window's logged decisions only the winner's is replayed, whichever event closes the window |
| `Replay.DealerRecovered` | mahjong/records/replay.py:141-151 | the dealer is recovered from the seat winds of the HEADER |
| `Replay.RunReplay` | mahjong/records/replay.py:54-138 | the loop over state and window buffer yields the replayed states or the first error |
| `Replay.RecordReplays` | mahjong/records/replay.py:54-138 | round trip: for any seed, dealer, rules and adapter behaviour, replaying the record of a hand yields the deal followed by exactly the states its apply_action calls returned |
| `ReplayLegal.ReplayIsLegal` | mahjong/records/replay.py:54-138 | any record that can be replayed, even a forged one, stands for a hand played by the rules: its states start with the deal of its seed and dealer, and each follows from the one before by a legal action |
| `ReplayLegal.KongWithoutResolution` | mahjong/records/replay.py:100-109 | a record without a resolution for an exposed kong, as its docstring describes it, replays from the decisions and the replacement draw to the same state |
| `Replay.FirstEastDeals` | mahjong/records/replay.py:141-151 | of any HEADER the dealer is the first East seat, and seat 0 if there is none |
| `ReplayStream.ViewerShowsReplay` | mahjong/records/replay_stream.py:29-45 | a replay viewer of any seat or of the public, seeded with the projected deal of a record and fed its projected events, is in step with the last replayed state, wall counts, dealt flowers and last draw included, and that is the state the hand ended in |
| `ReplayStream.ShowEvents` | mahjong/web/static/apply_event.js:442-452 | folding the reducer as it runs over any events gives the fold of the model, and the view passed in is unchanged |
| `ReplayStream.ShowReplay` | mahjong/records/replay_stream.py:29-45 | the viewer as it runs: the record replayed for its deal, a view object seeded and every projected event reduced, or the error of the replay |
| `ReplayStream.PlayAndShow` | mahjong/records/replay_stream.py:29-45 | end to end in place: a hand played and recorded by the manager's loop, replayed, and shown through the reducer's handlers leaves a view object in step with the state the hand ended in |
| `Privacy.PromptDependsOnViewOnly` | mahjong/engine/state.py:169-259 | two states with equal projections for a seat give it the same legal actions in the same order and the same default, in every phase |
| `Secrecy.EventsHide` | mahjong/engine/state.py:262-298 | two record events are sent to a viewer as the same event exactly if they differ in nothing but another seat's drawn tile, the tile of its concealed kong, or opportunities offered to others |
| `Secrecy.OwnEventsIntact` | mahjong/engine/state.py:262-298 | a seat gets its own draws and kongs as they are, everyone else gets them without the tile |
| `Secrecy.StatesHide` | mahjong/engine/state.py:169-259 | two states have the same projection for a viewer exactly if they differ in nothing but the order of the wall, other seats' hands, concealed kongs, drawn tile and pending claims, as long as the hand lasts |
| `Secrecy.ViewShows` | mahjong/engine/state.py:169-259 | what a projection does show, field by field: all of the viewer's own seat and all that lies open |
| `Secrecy.ActionTellsAlike` | mahjong/records/diff.py:21-88 | the events of an action, as sent to a viewer, depend on nothing it may not see: states that look alike before and after, and actions that do, give the same ones |
| `Secrecy.RunsSendTheSame` | mahjong/engine/state.py:262-298 | two runs whose states and decisions differ only in what a viewer may not see send it the same events, end in the same projection and leave its client with the same board |
| `Simulation.ProjectionTracked` | mahjong/engine/state.py:169-259 | a fresh projection of any state of the invariant is in the simulation relation |
| `Simulation.PlayFollowed` | mahjong/web/static/apply_event.js:181-252 | the projected events of a discard take a tracking client to a tracking client, with a window, a draw or an exhausted wall behind it |
| `Simulation.KongCase` | mahjong/web/static/apply_event.js:254-320 | the same for concealed and added kongs, hidden from or shown to the viewer, with the replacement draw or the exhausted wall behind them |
| `Simulation.PengFollowed` | mahjong/web/static/apply_event.js:336-399 | the same for a won PENG, whose meld the client builds from its own last discard |
| `Simulation.ChiFollowed` | mahjong/web/static/apply_event.js:336-399 | the same for a won CHI: the client drops just the two supporting tiles |
| `Simulation.ExposedKongFollowed` | mahjong/web/static/apply_event.js:336-399 | the same for a won exposed kong and its replacement draw |
| `Simulation.DecisionsUnseen` | mahjong/web/static/apply_event.js:254-273 | decisions of a contested window, losing ones included, leave the board alone |
| `Simulation.WinFollowed` | mahjong/web/static/apply_event.js:401-429 | the same for the end of a hand: scores, winner and settlement |
| `Simulation.RunFollowed` | mahjong/web/static/apply_event.js:442-452 | a client that tracks the server before a run of any length tracks it after the run |
| `DrawView.RunFlowering` | mahjong/records/diff.py:291-314 | over any run no event announces a flower replacement, and every seat's flowers only grow, behind the ones it has |
| `DrawView.EventKeepsFlowers` | mahjong/web/static/apply_event.js:442-452 | an event without flower replacements leaves the flowers of every seat in the client's view alone |
| `DrawView.RunShows` | mahjong/web/static/apply_event.js:181-246 | over any run a client of a seat shows, whenever a seat is on turn, the draw the server would project to it, and none while a window is open |
| `Simulation.RunSynced` | mahjong/web/static/apply_event.js:442-452 | a client that is in step with the deal, the wall and the last draw before a run of any length is so after it |
| `Simulation.ClientTracksHand` | mahjong/web/static/apply_event.js:442-452 | for every viewer, seed, dealer and adapter behaviour, folding the reducer over the projected record from the deal's projection gives the server's concealed tiles, melds, discards, scores, phase, turn, current discard or actor, settlement and (to a seat) last draw; every seat shows exactly the flowers it was dealt, and the wall counts are off by exactly the flowers added since the deal |
| `Reducer.SpliceSupport` | mahjong/web/static/apply_event.js:162-177 | the loop removes every tile of the run but the first occurrence of the called one |
| `Reducer.SpliceLast` | mahjong/web/static/apply_event.js:322-334 | the backward loop removes the last occurrence only |
| `Reducer.SeatViewer.OnDraw` | mahjong/web/static/apply_event.js:181-214 | the drawn tile joins an own hand in order or an opponent's count; the wall ticks once for it and once per announced flower |
| `Client.AnnouncedDraw` | mahjong/web/static/apply_event.js:181-214 | a draw that announces flowers adds them to the seat and ticks the wall once for each and once for the tile |
| `Reducer.SeatViewer.OnDiscard` | mahjong/web/static/apply_event.js:216-246 | the tile leaves the hand or the count, joins the pile and becomes the last discard |
| `Reducer.SeatViewer.OnSelfGang` | mahjong/web/static/apply_event.js:276-320 | a concealed kong is shown to its owner and hidden from others; an added kong upgrades the first PENG of the tile |
| `Reducer.SeatViewer.OnClaimed` | mahjong/web/static/apply_event.js:336-399 | the winner's tiles leave its hand, the called tile leaves the discarder's pile, the meld is pushed |
| `Reducer.SeatViewer.OnHandEnd` | mahjong/web/static/apply_event.js:401-429 | the settlement is recorded and four deltas are added seat by seat |
| `Reducer.Reduce` | mahjong/web/static/apply_event.js:442-452 | the handler of the event's kind changes a clone; the view passed in is unchanged |
| `Belief.RemainingCounts` | mahjong/bots/belief.py:31-57 | the counting loops give, for every playable tile, four less the visible copies, clamped at zero |
| `Belief.AnalysisCounts` | mahjong/analysis.py:38-55 | the decrementing loops succeed exactly when no flower is among the listed tiles, and then give four less the listed copies |
| `Belief.UnseenPoolIsExact` | mahjong/bots/belief.py:31-57 | in every state of the invariant, for every seat and playable tile, four less what its view shows is the number of copies in the wall, in opponents' hands and in their masked kongs; so the clamp never fires, both implementations agree and no key is missing |
| `Session.StepIsSafe` | mahjong/sessions/mux.py:476-520 | in every coherent session every step, whatever it is, resolves no future twice, loses no waiting prompt, and resolves a prompt only as its cause calls for: a legal action under the right id, the default, SeatHoldExpired or a cancellation |
| `Session.RunIsSafe` | mahjong/sessions/mux.py:578-611 | over every interleaving of steps, futures once resolved keep their outcome, and an unresolved prompt is the current one with its deadline armed |
| `Session.SessionsAreSafe` | mahjong/sessions/mux.py:785-852 | every sequence of steps of a new session succeeds: no set_result or set_exception ever meets a future that is done |
| `Session.DeadlineResolves` | mahjong/sessions/mux.py:608-611 | a waiting prompt gets its default when its own deadline fires, so none waits for ever |
| `Session.WaitingPromptGets` | mahjong/sessions/mux.py:476-520 | for every step, whether it resolves the waiting prompt and with what; no step but those listed does |
| `Session.NobodyWaitsAfterEnd` | mahjong/sessions/mux.py:785-852 | after any run, a detach, the end of a hand, the next hand or a shutdown leaves every prompt resolved and the slot free; all but the next hand unbind the seat and drop its hold |
| `Session.SeatFollows` | mahjong/sessions/mux.py:476-520 | where every other step leaves the seat's connection and hold timer |
| `Session.PromptIssued` | mahjong/sessions/mux.py:578-599 | a prompt takes the slot, unresolved and armed, exactly when none is outstanding |
| `Session.PromptReturned` | mahjong/sessions/mux.py:601-606 | when decide returns its deadline is disarmed, and the slot is free if it was its own |
| `Session.CancelFreesSlot` | mahjong/sessions/mux.py:598-606 | cancelling decide frees the pending slot if and only if the PROMPT had been sent; while it is being sent the cancellation misses the finally block |
| `Session.AbandonedPromptRefusesNext` | mahjong/sessions/mux.py:586-606 | a concrete run in which a prompt abandoned like that makes the next decide fail its assertion |
| `Session.SeatSession.BeginDecide` | mahjong/sessions/mux.py:578-599 | decide up to its first await: refused exactly when a prompt is outstanding, else the prompt takes the slot with its deadline armed |
| `Session.SeatSession.EndDecide` | mahjong/sessions/mux.py:601-606 | the finally block disarms the prompt's own deadline and empties the slot only if it is still its own |
| `Session.SeatSession.OnPromptDeadline` | mahjong/sessions/mux.py:608-611 | the callback resolves whatever prompt is in the slot, with that prompt's default |
| `Session.SeatSession.HandleAction` | mahjong/sessions/mux.py:680-694 | an action resolves the prompt if and only if one is outstanding, the id matches and the action is legal; otherwise nothing changes |
| `Session.SeatSession.OnSocketDropped` | mahjong/sessions/mux.py:487-496 | a live seat becomes held with its hold timer armed |
| `Session.SeatSession.OnHoldTimerFired` | mahjong/sessions/mux.py:498-510 | a held seat's prompt expires and the seat is torn down; in any other state nothing but the timer changes |
| `Session.SeatSession.GracefulDetach` | mahjong/sessions/mux.py:476-485 | an outstanding prompt expires and the seat is torn down |
| `Session.SeatSession.BeginNextHand` | mahjong/sessions/mux.py:785-829 | an outstanding prompt expires, the slot is emptied, and a held seat loses its hold timer |
| `Session.SeatSession.ResolvePendingAndTeardown` | mahjong/sessions/mux.py:831-835 | an outstanding prompt expires and the seat is torn down |
| `Session.SeatSession.FinishShutdown` | mahjong/sessions/mux.py:846-852 | an outstanding prompt gets its default and the seat is torn down |
| `Session.IdempotentTimer.Arm` | mahjong/sessions/timers.py:34-49 | exactly one callback is scheduled afterwards, a new one; any earlier one never fires |
| `Session.IdempotentTimer.Cancel` | mahjong/sessions/timers.py:51-55 | nothing is scheduled afterwards, also when nothing was before |
| `Session.IdempotentTimer.Fire` | mahjong/sessions/timers.py:45-47 | only a callback the loop still holds fires, and the timer is unarmed before the user's callback runs |
| `Limiter.PruneDeque` | mahjong/server/ratelimit.py:46-49 | the loop drops the leading events at or before the cutoff and nothing else |
| `Limiter.PruneCounts` | mahjong/server/ratelimit.py:46-57 | the length of a pruned deque of past events is the number of events in (now - window, now] |
| `Limiter.AnswerIsCount` | mahjong/server/ratelimit.py:51-57 | would_allow means fewer than max recorded events in (now - window, now] if and only if max is at least one or the key is tracked; an untracked key is let through whatever the budget |
| `Limiter.RecordedCounts` | mahjong/server/ratelimit.py:59-67 | a recorded event counts once for its key in every window that covers it, and for no other key |
| `Limiter.NoBudgetLetsFirstThrough` | mahjong/server/ratelimit.py:53-55 | a concrete case of the exception: with a budget below one the first event is let through and exceeds it |
| `Limiter.SweepChangesNoAnswer` | mahjong/server/ratelimit.py:76-85 | a sweep changes no later answer, except for keys it drops under a budget below one, where it always does |
| `Limiter.SweepKeepsActive` | mahjong/server/ratelimit.py:76-85 | a sweep keeps exactly the keys that have an event within the window |
| `Limiter.PeekChangesNoAnswer` | mahjong/server/ratelimit.py:51-57 | peeking at any key changes no later answer for any key, and no key comes or goes |
| `Limiter.AllowKeepsSpaced` | mahjong/server/ratelimit.py:69-74 | an event recorded after an affirmative answer, at the same or a later clock reading, comes at least a window after the one max places before it |
| `Limiter.NeverOverBudget` | mahjong/server/ratelimit.py:69-74 | with a budget of at least one and only allow used, no window of that length, wherever it ends, holds more than max events of a key |
| `Limiter.SlidingWindowLimiter.WouldAllow` | mahjong/server/ratelimit.py:51-57 | the answer, exactly; the key's deque is pruned, no entry is created, nothing is recorded |
| `Limiter.SlidingWindowLimiter.Record` | mahjong/server/ratelimit.py:59-67 | the event is appended to the pruned deque, creating it if needed |
| `Limiter.SlidingWindowLimiter.Allow` | mahjong/server/ratelimit.py:69-74 | check and record, with two clock readings; a limiter used through allow alone stays within budget |
| `Limiter.SlidingWindowLimiter.Sweep` | mahjong/server/ratelimit.py:76-85 | every deque is pruned and exactly the empty ones go |

## Left out

- Fan, shanten and winning-tile calculation: the fan calculator is an arbitrary function, and bot policies that rank by its values are not modelled.
- SHA-256 itself: an arbitrary function of seed and block number, so nothing is said about the quality of its bytes.
- Ruleset files, manifests and options: a ruleset is its conversion block and its functions; an unknown conversion scheme cannot be written down.
- The fields of the state that no rule reads: ruleset reference, hand index, schema version and the random-number cursor kept after the deal.
- Timestamps, state hashes, identities, decision times, checksums and JSON encoding of records; the FOOTER keeps turn and phase, the HEADER the seed and the seat winds.
- The settlement statistics in HAND_END, and the client's combined discard pond, which is approximate by its own comment.
- Range checks on seat numbers: seats are 0 to 3 by type. A meld without tiles, on which `_gang_added` would raise an IndexError, is skipped instead; no state of the invariant has one.
- asyncio, the lengths of timeouts and of the stall watchdog, event and state callbacks, adapters leaving, sockets, persistence and HTTP.
- Adapters that reach into the manager: one that changes the prompt it is handed (its list of legal actions is passed by reference, so it could make the manager try an action that apply_action then refuses), replies whose own comparison raises or lies, and attributes of an adapter that raise.
- Safety.StepSucceeds: when several adapters fail in one iteration only one error is reported, decisions in seat order first, then writes, then observe calls; in the program timing decides.
- `seated` and its failures, except for which seats start with an AutoPassAdapter.
- Equality of client and server views beyond the board: pending claims, a stale last discard after a draw and flowers drawn after the deal do differ.
- Secrecy.RunsSendTheSame: who claims, and what is claimed, counts as seen, because the record's decisions are sent to everyone; so does whether a discard was the tile just drawn.
- A client event with missing fields, and the draw of an own tile without a tile, which would put null into the hand: projected records have none.
- Connection coherence of a seat session (LIVE if and only if it has a sink, HELD only with its timer armed), which does not hold under interleaving; only the pending prompt and the two kinds of timers are modelled.
- Who attaches: an attach that a session rejects, or one that takes over a live seat, changes nothing the model holds and is no step.
- Session.SeatSession.BeginDecide: futures, prompts and deadline timers are entries of one list instead of separate objects, so two references to the same future cannot be told apart; the hold timer is an object.
- Session.SeatSession.GracefulDetach: the acknowledgement sent first is a step of its own that changes nothing; likewise the messages sent before shutdown and at the end of a hand.
- Engine.Act: the seats of a state object are a sequence of values that methods reassign, so aliasing between the seats' lists of one state is not captured.
- Reducer.Reduce: the same for the seats of a view.
- HandRunner.HandRunner.OneStep: the observe calls of a step are looked at once, behind its last event, instead of behind each; an abort comes from the same steps.
- HandRunner.HandRunner.Loop: the loop ends with the script of replies; that it needs no more than 236 of them is `Replay.HandEnds`.
- HandRunner.PlayHand: after an exception only the exception is stated, not the partial record; a partial record has no FOOTER.
- MatchScore.MatchScore.RecordHand: a score delta is a list of integers or not a list; list entries that `int` would convert or refuse are not modelled.
- Limiter.AnswerIsCount: clock readings are real numbers and never go back; rounding of floating-point differences is not modelled.
- BotzoneCsmSerializer, dealer rotation, worker partitioning, the CLI and the admin console: unfinished, or only easy members.
