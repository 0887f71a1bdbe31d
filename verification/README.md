# Poker engine, deposit indexer and durable record: a verified model

This project models three parts of the poker platform and proves what they promise to one another.

- **The no-limit Hold'em engine** (`packages/poker-engine/src`). A reducer takes commands over a table state; on top of
  it sit side pots, showdown, a seven-card evaluator, and the dealing of the first and every next hand. The central
  result is an invariant of every reachable state (`BettingInvariant.Betting`), kept by dealing, by every accepted
  command and by settlement. From it follow turn order, termination, the exactness of the raise-rights cache and of
  the legal-action list, payability, chip conservation, board independence, and the executable state check. What a
  command does is stated on the states before and after it (`TurnLaws`), which hand wins on the cards (`HandOrder`), and
  what a player is paid on the commitments (`Winnings`).
- **The durable record of hands and its recovery** (`packages/db/src/game-server.ts`,
  `apps/poker-api/src/game`). Any number of servers with memories of their own run handlers over one database: actions,
  repeats, timeouts, snapshot requests and recoveries, each a sequence of steps from one wait of the handler to the
  next, in any order and across crashes (`TableServers`). A recovery ends with exactly the last committed state unless
  its hand gained an entry between its two queries, and a room is drained only after something was overtaken in this
  way; what a player is told succeeded is in the tables for good. This needs the engine's invariant.
- **Deposits, ledger and withdrawals** (`packages/db/src/chain.ts`, `ledger.ts`, `withdrawal.ts`,
  `apps/poker-api/src/chain/indexer.service.ts`). Indexer workers with lease generations scan a chain that reorganises
  between synchronisations; the live deposit events are shown to be exactly the deposits of the chain the checkpoint
  names, credited to the wallets that made them, and every ledger balance to be a sum over event and withdrawal statuses.

The code that loops or updates state is modelled by methods and classes with loops, each proved equal to a
specification function; the properties are proved about those functions. A block hash is modelled as the chain up to
the block, encryption as its own inverse, and a payload hash as the payload.

Definitions too large for the solver to unfold everywhere are written as `forall k :: Open(seal, k) ==> ...` (module
`Sealing`): `Open` is always true, so such a definition means exactly what stands behind the arrow; the detour only
decides where in a proof it is unfolded.

## Findings

- **Wallet of a reimported deposit.** `packages/db/src/chain.ts:267-277` updates a reorged row for a wallet without a
  user but leaves the wallet it recorded before. `Indexer.WalletRecorded` says exactly when the recorded wallet is that
  of the log; `Indexer.ReimportKeepsOldWallet` is an input where it is not. Over all runs this happens only to rows that
  were reorganised before and are not credited (`Fencing.WrongWalletIsReimported`), and it does happen
  (`OldWallets.WrongWalletIsReachable`); a credited row is always its wallet's own deposit (`Fencing.CreditedIsOnChain`).
- **A chain shorter than the confirmations.** `apps/poker-api/src/chain/indexer.service.ts:75` returns before the
  checkpoint is compared with the chain, so such a synchronisation can leave reorganised deposits live
  (`Fencing.ShortChainLeavesOldDeposits`). `IndexerService.Service.SyncLocked` states that after a normal return the
  record agrees with the chain if and only if the chain is longer than the confirmations or the record already agreed.
- **Hands that are over as they are dealt.** With stacks below the big blind a hand can be dealt complete
  (`HandStarts.ShortStackDealsComplete`). `createDurableHand` (`packages/db/src/game-server.ts:375-426`) always stores a
  deadline and the status in progress, which recovery refuses for a complete state
  (`apps/poker-api/src/game/recovery.service.ts:101-116`) and drains the room. `HandRecords.FreshHandRecovers` proves
  that a fresh hand is recovered if and only if it was dealt live, and `HandStarts.FirstHandStarts` and `NextHandStarts`
  that stacks of a big blind or more suffice.
- **A recovery that is overtaken drains a healthy room.** `apps/poker-api/src/game/recovery.service.ts:76` reads the
  newest snapshot and line 118 the hand's events, in two queries with no transaction around them. If an action is
  committed in between, the events end past the snapshot and line 157 drains the room. The two may run on different
  servers, or on one, because `table:snapshot` (`apps/poker-api/src/game/game.gateway.ts:982`) recovers without the
  room's lock. `DurableRuns.RecoveryDrainsIffOvertaken` is the exact condition; `DrainingRuns.RecoveryCanDrain`
  constructs such a run from every reachable state in which the room's hand is being played.
- **A timeout that is overtaken drains a healthy room.** A timeout is decided on the runtime its server holds. If
  another server commits to the hand first, `commitAction` throws `STALE_SNAPSHOT`, and the callers at
  `apps/poker-api/src/game/game.gateway.ts:192-194`, `215-216` and `441-443` answer any throw by draining the room.
  `DurableRuns.StaleIffMovedOn` says exactly when that commit is stale, `DurableRuns.DrainedOnlyWhenOvertaken` that a
  room is never drained for a reason other than these two, and `DrainingRuns.TimeoutCanDrain` constructs such a run.
  The cache itself is safe: although `game.gateway.ts:532` sets it whatever the commit answered, a replayed answer was
  given for the same request in the same state (`ServerSteps.RepeatedTimeout`).

## Model

| member | source | states |
|---|---|---|
| Cards.ValidateDeck | packages/poker-engine/src/cards.ts:55-68 | accepts exactly the lists without a repeated card, returning them unchanged; a refusal names a card that occurs twice |
| Reducer.NextActivePlayer | packages/poker-engine/src/reducer.ts:51-60 | the loop returns the specification's next seat; BettingInvariant.NextActiveNearest says what that is |
| BettingInvariant.NextActiveNearest | packages/poker-engine/src/reducer.ts:51-60 | the seat found is the active one nearest clockwise, and none is found only when nobody is active |
| Reducer.ApplyCommandResult | packages/poker-engine/src/reducer.ts:206-338 | guards, chip movement and turn passing give the specification's answer; what that is, TurnLaws says without the reducer's own tests |
| Reducer.MoveChips | packages/poker-engine/src/reducer.ts:237-326 | the reassigned betting fields and the event are those of the action's specification |
| TurnLaws.CommandMovesChips | packages/poker-engine/src/reducer.ts:237-326 | an accepted command moves exactly the cost of its action from the actor's stack to the actor's commitment, folding or going all in accordingly, and no other chip |
| TurnLaws.CommandTakesTurn | packages/poker-engine/src/reducer.ts:82-174 | after every accepted command the hand is over iff at most one contender is left or at most one can act and matches the bet; the next street begins iff two or more can act and each is the actor or has acted and matches the bet, with the nearest active seat left of the button first; otherwise the turn is with the nearest active seat left of the actor |
| TurnLaws.CommandSetsMinimum | packages/poker-engine/src/reducer.ts:264-326 | while a street lasts the minimum raise is the size of the last full raise, and a full raise makes everybody else owe a decision anew |
| TurnLaws.CommandIsTold | packages/poker-engine/src/reducer.ts:237-338 | the first event names the actor, the action, its cost and whether it was a full raise |
| TurnLaws.RefusalReasons | packages/poker-engine/src/reducer.ts:206-236 | a command is refused as stale, out of turn or for its amount under exactly these conditions, in this order, and as illegal otherwise |
| Reducer.ListLegalActions | packages/poker-engine/src/reducer.ts:349-386 | the pushed list is the specified one, proved exact in LegalMoves |
| BettingSteps.CommandKeepsBetting | packages/poker-engine/src/reducer.ts:206-338 | every accepted command leads from a state in betting order to one in betting order |
| BettingInvariant.FinishIsBetting | packages/poker-engine/src/reducer.ts:82-174 | ending the hand, closing the street and passing the turn each restore betting order |
| BettingInvariant.PassIsLive | packages/poker-engine/src/reducer.ts:107-173 | when the turn passes it goes to an active player who still owes a decision |
| LegalMoves.TurnIsOwed | packages/poker-engine/src/reducer.ts:51-60 | in every reachable live state the actor can act and has not acted since the last full raise or is below the bet |
| LegalMoves.RaiseRightsExact | packages/poker-engine/src/reducer.ts:237-326 | a player holds raise rights iff active and unheard this street or facing at least a minimum raise over the wager last acted on, and that wager is their street commitment |
| LegalMoves.LegalActionsExact | packages/poker-engine/src/reducer.ts:349-386 | listed actions with amounts in range are accepted, accepted ones are listed in range; the one accepted action unlisted is a fold when nothing is owed |
| LegalMoves.ListedCallAmount | packages/poker-engine/src/reducer.ts:349-386 | a listed call names the positive amount that calling moves |
| LegalMoves.NothingLegalOutOfTurn | packages/poker-engine/src/reducer.ts:206-236 | out of turn or after the hand nothing is listed and every command is refused |
| Termination.CommandDescends | packages/poker-engine/src/reducer.ts:107-173 | an accepted command lowers streets left, total stacks, active players, active players yet to act, lexicographically |
| Termination.RunsAreBounded | packages/poker-engine/src/reducer.ts:206-338 | no run of accepted commands is longer than a bound read off its first state, so every hand completes |
| Termination.TimeoutAccepted | packages/poker-engine/src/lifecycle.ts:25-35 | a timeout resolves in exactly the live states; in a completed one the command is refused |
| TurnLaws.TimeoutIsFair | packages/poker-engine/src/lifecycle.ts:25-35 | a timeout folds a player who owes chips and checks, without folding, one who owes nothing |
| Termination.TimeoutsCompleteTheHand | packages/poker-engine/src/lifecycle.ts:25-35 | a hand of n seats is complete after at most 4n timeouts, none of which throws |
| Evaluator.StraightHigh | packages/poker-engine/src/evaluator.ts:38-53 | the ladder search returns the specified top; Categories.StraightMeaning says which rank that is |
| Categories.StraightMeaning | packages/poker-engine/src/evaluator.ts:38-53 | the top is the highest rank with four consecutive ranks below it among the cards, the ace also low; none iff no five are consecutive |
| Categories.CategoryMeaning | packages/poker-engine/src/evaluator.ts:55-105 | the category named for five cards and every value after it, side cards and kickers included, are those an independent reading of the cards gives |
| Evaluator.CompareHands | packages/poker-engine/src/evaluator.ts:107-114 | the loop returns the specified comparison; HandOrder says which hand it favours |
| HandOrder.CompareMeaning | packages/poker-engine/src/evaluator.ts:107-114 | a comparison is positive iff at the first place where the vectors differ, missing entries counting as zero, the first hand's entry is larger |
| HandOrder.RankedAsPoker | packages/poker-engine/src/evaluator.ts:55-114 | one hand scores above another iff its category outranks the other's in the listed order, or the categories agree and its rank is higher where the ranks first differ |
| HandRanking.CompareTotal | packages/poker-engine/src/evaluator.ts:107-114 | swapping the hands negates the comparison, and a hand ties with itself |
| HandRanking.CompareTransitive | packages/poker-engine/src/evaluator.ts:107-114 | at least as good is transitive |
| HandRanking.EqualHandsEqualScores | packages/poker-engine/src/evaluator.ts:55-114 | two five-card hands tie only when category and value vectors are equal |
| HandRanking.ScoreIgnoresOrder | packages/poker-engine/src/evaluator.ts:55-105 | rearranging five cards does not change their score |
| SevenCards.SearchSeven | packages/poker-engine/src/evaluator.ts:116-145 | the nested loops try every choice of five of the seven cards exactly once, and their result is attained and beaten by none |
| SevenCards.EvaluateSeven | packages/poker-engine/src/evaluator.ts:116-145 | refuses anything but seven different cards, otherwise returns the best of all five-card choices |
| HandRanking.BestOfSevenIsBest | packages/poker-engine/src/evaluator.ts:116-145 | the specified value is attained by some five of the cards and at least as good as every five |
| HandRanking.SevenIgnoresOrder | packages/poker-engine/src/evaluator.ts:116-145 | the value of seven cards does not depend on their order |
| Pots.BuildPots | packages/poker-engine/src/pots.ts:15-43 | the layering loop gives the specified pots and refunds |
| Fairness.PayoutsConserve | packages/poker-engine/src/pots.ts:15-43 | pots and refunds partition the commitments: the payouts sum to them exactly |
| Fairness.PayoutBounded | packages/poker-engine/src/pots.ts:118-171 | a payout is never negative and at most the sum over all players of the smaller of the two commitments |
| Fairness.PayoutIsLayers | packages/poker-engine/src/pots.ts:109-131 | the sole-contender shortcut pays exactly what the pot layers would |
| Fairness.FoldedGetNothing | packages/poker-engine/src/pots.ts:109-150 | neither a pot nor a refund goes to a player who folded |
| Fairness.AlwaysPayable | packages/poker-engine/src/pots.ts:132-140 | where a contender has put in the most, no contested pot lacks an eligible player |
| Fairness.SettleConserves | packages/poker-engine/src/pots.ts:109-173 | settlement keeps the total of chips and leaves no commitment |
| Showdown.BestIds | packages/poker-engine/src/pots.ts:63-88 | returns exactly the eligible ids nobody eligible beats, in order, or the first id without seven different cards |
| Fairness.WinnersAreBest | packages/poker-engine/src/pots.ts:63-88 | the winners of a pot are its eligible players that no eligible player beats |
| HandOrder.WinnersHoldUp | packages/poker-engine/src/pots.ts:63-88 | at a showdown the winners of a contested pot are exactly the eligible players with five cards that no five cards of an eligible player beat, by category or by rank |
| Winnings.PaidWhatIsWon | packages/poker-engine/src/pots.ts:15-150 | a contender beaten up to some commitment and by nobody above it is paid exactly what all put in above it, each counted up to the contender's own commitment |
| Winnings.SettlementPays | packages/poker-engine/src/pots.ts:109-173 | the settled stacks grow by exactly that, and by nothing for a player who folded or is beaten by someone with as much in |
| Fairness.OddChipsClockwise | packages/poker-engine/src/pots.ts:45-61 | two winners differ by at most one chip, and the one paid more sits nearer the left of the button |
| Fairness.ClockIsGap | packages/poker-engine/src/pots.ts:45-61 | the sort key is the clockwise distance from the button, the button itself last |
| Showdown.SettleShowdown | packages/poker-engine/src/pots.ts:109-173 | the loops over pots and winners give the specified settlement or the same error |
| Pots.RunOutBoard | packages/poker-engine/src/pots.ts:90-107 | the dealing loop gives the specified board and deck, or the same error |
| Game.SomeoneCovers | packages/poker-engine/src/reducer.ts:82-174 | in every reachable state some player who has not folded has the largest hand commitment |
| Game.CompleteSettles | packages/poker-engine/src/pots.ts:109-173 | every completed hand in play can be settled, without any error |
| Board.StreetCut | packages/poker-engine/src/reducer.ts:66-80 | dealing a street cuts board and deck from the original deck at the next fixed place |
| Board.RunOutCut | packages/poker-engine/src/pots.ts:90-107 | a run-out from any street ends with the board that street-by-street dealing gives |
| Board.NoCardTwice | packages/poker-engine/src/invariants.ts:135-139 | undealt cards, board and hands are pairwise different |
| Game.BoardIndependence | packages/poker-engine/src/reducer.ts:66-80 | every betting run that reaches a showdown ends on deck cards 2n+1 to 2n+3, 2n+5 and 2n+7 |
| Game.NeverTwice | packages/poker-engine/src/reducer.ts:66-80 | at no point of a game of any number of hands does a card appear twice |
| Lifecycle.NextFundedPlayer | packages/poker-engine/src/lifecycle.ts:6-18 | the loop returns the specified seat; NewHands.AfterNearest says it is the nearest funded one |
| NewHands.AfterNearest | packages/poker-engine/src/lifecycle.ts:6-18 | no funded seat lies nearer clockwise than the one found |
| Dealing.StartHand | packages/poker-engine/src/state.ts:78-191 | the dealing, posting and actor loops give the specified first hand or the first failing check |
| Dealing.AdvanceHand | packages/poker-engine/src/lifecycle.ts:74-175 | the dealing loops give the specified next hand or the first failing check |
| Dealing.DealRounds | packages/poker-engine/src/lifecycle.ts:131-143 | two rounds one card at a time give each funded player their two cards of the deck |
| Openings.FirstHandGranted | packages/poker-engine/src/state.ts:78-102 | the exact conditions under which a first hand is dealt |
| Openings.NextHandGranted | packages/poker-engine/src/lifecycle.ts:74-100 | the exact conditions under which a next hand is dealt |
| Openings.FirstHandOpens | packages/poker-engine/src/state.ts:104-190 | the seats left of the button, or the button between two, post the blinds as far as their stacks go, the bet is the largest of the posts, the hand is over iff nobody is left to act, and the seat after the big blind speaks first |
| Openings.NextHandOpens | packages/poker-engine/src/lifecycle.ts:97-175 | the same for the next hand, from the new button and over the funded seats |
| NewHands.FirstHandIsBetting | packages/poker-engine/src/state.ts:130-190 | the first hand is dealt in betting order, for all seatings and stacks accepted |
| NewHands.NextHandIsBetting | packages/poker-engine/src/lifecycle.ts:97-175 | the next hand is dealt in betting order |
| NewHands.ButtonMoves | packages/poker-engine/src/lifecycle.ts:97 | the button moves to the nearest other funded seat clockwise |
| NewHands.NextHandConserves | packages/poker-engine/src/lifecycle.ts:108-129 | dealing the next hand keeps the total of chips |
| Game.FirstHandDeals | packages/poker-engine/src/state.ts:104-128 | in a first hand of n, the seat t+1 past the button gets deck cards t and n+t |
| Game.NextHandDeals | packages/poker-engine/src/lifecycle.ts:131-143 | exactly the funded players hold cards: two each, one from each round in seat order from the new button |
| Game.CommandConserves | packages/poker-engine/src/reducer.ts:206-338 | a command keeps the sum of stacks and commitments |
| Game.SettleKeepsGame | packages/poker-engine/src/pots.ts:109-173 | a settled hand is in order again and its cards are those of the deal |
| Game.InGamePasses | packages/poker-engine/src/invariants.ts:18-140 | every state in play passes the executable check, and its bet is the largest of the street |
| StateChecks.CheckMeaning | packages/poker-engine/src/invariants.ts:18-140 | the executable check passes exactly the states that are consistent in players, betting and cards as listed there |
| Game.WholeGame | packages/poker-engine/src/invariants.ts:18-140 | across any number of hands every state passes the check, the chips are those first sat down with, and a completed hand settles |
| DurableLog.Database.CreateDurableHand | packages/db/src/game-server.ts:375-426 | the tables after creating a hand, or unchanged on an existing id or a negative stack; SeatRows says what becomes of the seats |
| DurableLog.Database.CommitDurableAction | packages/db/src/game-server.ts:504-622 | the tables and answer of a commit: replay, conflict, stale version, rollback, or the appended rows |
| DurableLog.Database.NumberEvents | packages/db/src/game-server.ts:558-583 | the sequence counter numbers the events on from the hand's last one, the first carrying the action id |
| HandRecords.CommitOutcomes | packages/db/src/game-server.ts:514-622 | whatever the tables hold a commit takes effect exactly if its id is new, the hand is on record with its newest snapshot at the expected version and no stack is negative; anything else changes nothing |
| HandRecords.CreateOutcomes | packages/db/src/game-server.ts:375-426 | a hand is created exactly if its id is new and no stack is negative, else nothing changes |
| SeatRows.StacksWritten | packages/db/src/game-server.ts:595-601 | a write of stacks adds and drops no seat; a seat of the room named in the list gets the last stack listed for it, and every other seat keeps its own |
| SeatRows.SeatsFollowHand | packages/db/src/game-server.ts:504-622 | over all runs the seat row of every player of a room's newest snapshot holds the stack that snapshot gives them, but for a player who left the seat and took it anew since |
| SeatRows.HandsAreNumbered | packages/db/src/game-server.ts:375-426 | over all runs the hands of a room are numbered 1, 2, 3 and so on as they are dealt |
| Recovery.Server.ReadSnapshot | apps/poker-api/src/game/recovery.service.ts:76-116 | the first query finds no hand, a snapshot that passes the checks on it alone, or one to drain for |
| Recovery.Server.ReadEvents | apps/poker-api/src/game/recovery.service.ts:117-165 | the second query, at a later time, makes the snapshot the room's runtime iff its events confirm it |
| Recovery.HistoryMeaning | apps/poker-api/src/game/recovery.service.ts:115-159 | the replay accepts exactly the gapless histories with legal events whose versions rise by one, or two at a paired settlement, up to the snapshot |
| StateChecks.ReadyMeaning | apps/poker-api/src/game/recovery.service.ts:76-165 | whatever the tables hold, a recovery is ready exactly with a consistent state of this room and hand under its stored version, with a deadline iff it is live, that the events confirm |
| Gateway.TableGateway.FindOperation | apps/poker-api/src/game/game.gateway.ts:719-748 | a repeat is answered with the stored acknowledgement, another request under the id is refused |
| Gateway.TableGateway.DecideMove | apps/poker-api/src/game/game.gateway.ts:761-810 | the commit a player's request leads to in the runtime held, or why it is refused |
| Settlements.MoveIsCommitted | apps/poker-api/src/game/game.gateway.ts:761-810 | a request becomes a commit exactly if it is for the runtime's hand and version and the engine accepts it, and what the commit carries |
| Gateway.TableGateway.KeepMove | apps/poker-api/src/game/game.gateway.ts:815-828 | a player's action sets the runtime iff this very commit took effect, and the reply |
| Gateway.TableGateway.AwaitTimeout | apps/poker-api/src/game/game.gateway.ts:458-476 | the request a timeout makes, unless its decision is no longer the one due |
| Gateway.TableGateway.KeepTimeout | apps/poker-api/src/game/game.gateway.ts:512-533 | a timeout sets the runtime whenever its commit answers, and throws when it does not |
| Settlements.AwaitedMeaning | apps/poker-api/src/game/game.gateway.ts:458-469 | a timeout acts exactly when the hand is on and the decision, deadline and player it was set for are still the ones due |
| Settlements.TimeoutRequestIsFair | apps/poker-api/src/game/game.gateway.ts:470-476 | the server's request folds the actor iff the actor owes chips and checks otherwise, under the hand's and version's own id |
| HandEvents.DecideFits | apps/poker-api/src/game/game.gateway.ts:371-412 | an accepted decision is never blocked by settlement, and its events, versions and state fit the record |
| Settlements.DecisionIsTold | apps/poker-api/src/game/game.gateway.ts:371-412 | a decision that ends the hand adds one last event: its pot is all that was committed, its awards are what each player gained and together the pot, its stacks are those after it; any other adds none |
| HandLogs.HistoryReplays | apps/poker-api/src/game/recovery.service.ts:115-159 | the rows of any log of decisions replay to its last version |
| HandLogs.OnlyLastReplays | apps/poker-api/src/game/recovery.service.ts:117-159 | of all snapshots of a hand its events confirm the last one and no other |
| HandRecords.RecoveryRoundTrip | apps/poker-api/src/game/recovery.service.ts:67-166 | in tables in order a recovery whose two queries see the same tables finds no hand or is ready with the last committed state |
| ServerSteps.AdvanceKeeps | apps/poker-api/src/game/game.gateway.ts:447-862 | every step of every handler on every server keeps the tables in order, memories that hold only committed states, and one handler at a time under a room's lock |
| ServerSteps.RepeatedTimeout | apps/poker-api/src/game/game.gateway.ts:512-533 | a timeout found on record was the same request in the same state and led to the state decided now, so setting the runtime is safe |
| DurableRuns.RecoveryOutcome | apps/poker-api/src/game/recovery.service.ts:117-165 | at its second query a recovery drains iff its snapshot is no longer its hand's newest, and else holds exactly the last committed state |
| DurableRuns.RecoveryDrainsIffOvertaken | apps/poker-api/src/game/recovery.service.ts:76-159 | over all runs a recovery drains iff the hand whose snapshot it read gained an entry between its two queries |
| DurableRuns.DrainedOnlyWhenOvertaken | apps/poker-api/src/game/game.gateway.ts:192-216 | over all runs a room is drained only after a recovery between its queries, or a guarded timeout between decision and commit, was overtaken |
| DurableRuns.OvertakenFacesDrain | apps/poker-api/src/game/game.gateway.ts:441-443 | conversely every recovery and every guarded timeout that is overtaken is left about to drain its room |
| DrainingRuns.RecoveryCanDrain | apps/poker-api/src/game/recovery.service.ts:76-159 | every reachable state with a hand being played in an open room continues to one where the room is drained, by starting handlers and letting them proceed |
| DrainingRuns.TimeoutCanDrain | apps/poker-api/src/game/game.gateway.ts:441-443 | the same by a timeout that a fold overtakes between decision and commit |
| DrainingRuns.DealtRoomIsOpen | packages/db/src/game-server.ts:375-426 | dealing any hand that can be played reaches such a state |
| DurableRuns.StaleIffMovedOn | packages/db/src/game-server.ts:547-553 | of commits about to run exactly those of new actions whose hand has moved on since the decision are refused as stale |
| DurableRuns.SuccessTookEffect | apps/poker-api/src/game/game.gateway.ts:733-862 | whatever a player was told succeeded is on record with that acknowledgement ever after: its events are exactly the rows of its version, under its id, beside a snapshot |
| DurableRuns.CommittedIsRecovered | apps/poker-api/src/game/game.gateway.ts:785-833 | a recovery whose queries follow a commit that took effect returns exactly the runtime the committing handler will set |
| HandRecords.FreshHandRecovers | packages/db/src/game-server.ts:375-426 | a hand just dealt is recovered if and only if it was dealt live, and is drained otherwise |
| HandRecords.ActionsTakeEffectOnce | packages/db/src/game-server.ts:518-546 | an action id stands for at most one committed action, in one hand or across hands |
| DurableRuns.RepeatsReplay | apps/poker-api/src/game/game.gateway.ts:720-750 | once an action is on record every later lookup on any server answers with the stored acknowledgement iff room, hand, player and payload agree, else with a conflict, and a commit still to come writes nothing |
| DurableRuns.DealtIsPlayed | apps/poker-api/src/game/game.gateway.ts:344-360 | after creating a hand the dealing server's runtime for the room is exactly the dealt state |
| DurableRuns.AnsweredMove | apps/poker-api/src/game/game.gateway.ts:815-859 | a player is told of success iff the commit was acknowledged, and the runtime moves on iff this very commit took effect |
| DurableRuns.RepeatIsAnswered | apps/poker-api/src/game/game.gateway.ts:719-748 | over all runs a request whose id is on record before its handler has the lock is answered from the record and goes no further |
| DurableRuns.TimeoutsAreDue | apps/poker-api/src/game/game.gateway.ts:458-518 | over all runs a timeout acts only in the hand, at the version and for the player it was set for |
| DurableRuns.DrainingRoomRests | apps/poker-api/src/game/game.gateway.ts:499-753 | over all runs no action and no timeout that arrives in a draining room ever gets to commit |
| DurableRuns.StaleNeverTakes | packages/db/src/game-server.ts:518-553 | over all runs, a request for a version its hand has left writes nothing and never takes effect, whatever the server's memory holds; with a new id it is refused as stale |
| HandRecords.SequencesCount | packages/db/src/game-server.ts:558-583 | a hand's events are numbered 1, 2, 3 and so on |
| HandRecords.SnapshotsChain | packages/db/src/game-server.ts:584-592 | consecutive snapshots of a hand are one engine decision apart, one version on, or two when the hand settles |
| DurableRuns.CachedIsSnapshot | apps/poker-api/src/game/game.gateway.ts:785-833 | a runtime in any memory equals the one snapshot of its hand and version |
| HandStarts.FirstHandStarts | packages/poker-engine/src/state.ts:78-191 | from stacks of at least a big blind the first hand is live and starts a record |
| HandStarts.NextHandStarts | apps/poker-api/src/game/game.gateway.ts:327-356 | so does the next hand, with its version set back to zero |
| HandStarts.ShortStackDealsComplete | packages/poker-engine/src/state.ts:160-177 | an accepted seating whose first hand is complete as dealt |
| Ledger.NormalizeEntries | packages/db/src/ledger.ts:67-82 | the map-filling loop gives the specified canonical form |
| Ledger.NormalizeKeepsNets | packages/db/src/ledger.ts:67-82 | the canonical form keeps every net and is strictly sorted and free of zeros |
| Ledger.SameFormIffSameNets | packages/db/src/ledger.ts:67-101 | two entry lists normalise equally if and only if their nets agree on every account |
| Ledger.NormalizeIdempotent | packages/db/src/ledger.ts:67-82 | normalising twice is normalising once |
| Ledger.PrepareMeaning | packages/db/src/ledger.ts:103-114 | entries are accepted iff they balance and some account has a non-zero net |
| Ledger.LedgerBook.PostTransaction | packages/db/src/ledger.ts:143-217 | the books and the answer after a posting, with every refusal leaving the books unchanged |
| Ledger.PostOutcomes | packages/db/src/ledger.ts:143-204 | a posting under a new reference is accepted exactly if it balances, does something, and debits a named source by no more than it holds; lack of funds is refused for the source alone |
| Ledger.RepostChangesNothing | packages/db/src/ledger.ts:116-153 | posting a reference again changes nothing and succeeds iff the nets agree with the stored transaction |
| Ledger.PostMovesBalances | packages/db/src/ledger.ts:143-204 | a posting accepted under a new reference moves every balance by the net of its entries as given |
| Ledger.BalancesSumToZero | packages/db/src/ledger.ts:259-266 | over any listing of the accounts in use the balances sum to zero |
| Ledger.PostAllKeepsBooks | packages/db/src/ledger.ts:143-204 | any sequence of postings leaves every transaction balanced and canonical and every reference used once |
| Ledger.SourcedNeverNegative | packages/db/src/ledger.ts:165-181 | an account debited only by postings naming it as source never goes negative |
| ChainStore.ChainTables.CommitChainDepositRange | packages/db/src/chain.ts:333-360 | the whole range with its checkpoint, or unchanged tables and the error |
| ChainStore.ChainTables.RewindChainDeposits | packages/db/src/chain.ts:362-435 | the whole rewind, or unchanged tables and the error |
| ChainStore.ChainTables.CreditDeposit | packages/db/src/chain.ts:244-307 | the row and posting for one deposit: kept, unattributed or credited |
| ChainStore.FenceGuards | packages/db/src/chain.ts:156-171 | the fence refuses a commit if and only if its lease is not the newest |
| ChainStore.DescendingMeaning | packages/db/src/chain.ts:179-188 | the history listing holds exactly the checkpoints below the block, highest first |
| Indexer.RangeKeepsSynced | packages/db/src/chain.ts:333-360 | after a range commit the live events are exactly the chain's deposits up to the range's end, credited and never reorganised ones with the wallet that made them, and the history lies on that chain |
| Indexer.RewindKeepsSynced | packages/db/src/chain.ts:362-435 | after a rewind to a shared block the live events are exactly the chain's deposits before it, with the same wallets |
| Indexer.WalletRecorded | packages/db/src/chain.ts:256-306 | an import records its log's wallet iff the wallet has a user, or the row is new, or the row already had that wallet |
| Indexer.ReimportKeepsOldWallet | packages/db/src/chain.ts:267-277 | an input where the recorded wallet is not the log's |
| OldWallets.WrongWalletIsReachable | packages/db/src/chain.ts:267-277 | a run of two synchronisations that leaves a live row with the wallet of a deposit that is gone |
| Fencing.WrongWalletIsReimported | packages/db/src/chain.ts:256-306 | over all interleavings only rows reorganised before and not credited can carry another wallet than their deposit's |
| Fencing.CreditedIsOnChain | packages/db/src/chain.ts:244-307 | over all interleavings a credited row is a deposit of the checkpoint's chain: same id, block, amount and wallet |
| IndexerService.Service.FindCommonAncestor | apps/poker-api/src/chain/indexer.service.ts:187-203 | the highest stored checkpoint below the block that is on the chain, or none if none is |
| IndexerService.Service.SyncLocked | apps/poker-api/src/chain/indexer.service.ts:70-103 | whatever happens the record follows some chain; a completed synchronisation records exactly this chain's deposits, and the wallets of credited and never reorganised ones, up to a checkpoint that is the last block with its confirmations, or the one scanning resumed from if that is further on |
| Fencing.EveryInterleaving | packages/db/src/chain.ts:122-171 | over all interleavings of workers, lost locks and crashes the record follows a chain, wallets of credited rows included, and commits take effect in lease order |
| Fencing.StaleNeverWrites | packages/db/src/chain.ts:156-171 | a worker whose lease is not the newest never changes the database |
| Fencing.ScansNextBlock | apps/poker-api/src/chain/indexer.service.ts:94-102 | the worker with the newest lease scans on from the block after the checkpoint, on its chain |
| Scanning.ScansOnlyConfirmed | apps/poker-api/src/chain/indexer.service.ts:94-102 | over all interleavings a scanning commit moves the checkpoint over the next blocks, at most one range and only ones with their confirmations on the worker's chain, and writes only their deposits, each credited iff its wallet has a user and then to that user |
| Scanning.RewindsOnlyBranch | packages/db/src/chain.ts:362-435 | over all interleavings a rewinding commit reorganises exactly the live rows from a block on up to which record and chain agree, and keeps exactly the checkpoints below it |
| Scanning.SearchFindsHighest | apps/poker-api/src/chain/indexer.service.ts:187-203 | the search ends after the highest stored checkpoint that lies on the worker's chain, or at the start |
| Fencing.FinishedIsRefined | apps/poker-api/src/chain/indexer.service.ts:70-103 | when it finishes, the live events are exactly its chain's deposits from the start block to the checkpoint, credited and never reorganised ones with their wallets |
| Fencing.ShortChainStops | apps/poker-api/src/chain/indexer.service.ts:75 | the first step writes nothing, and stops iff the chain is too short for the confirmations or the checkpoint |
| Fencing.ShortChainLeavesOldDeposits | apps/poker-api/src/chain/indexer.service.ts:75 | a world in order where that stop leaves a deposit live that the chain does not have |
| IndexerProgress.SyncFinishes | apps/poker-api/src/chain/indexer.service.ts:70-103 | an undisturbed worker on a chain of n blocks is done within n + 5 steps, none of its commits refused |
| Withdrawals.WithdrawalTables.ReserveWithdrawal | packages/db/src/withdrawal.ts:46-135 | replay by key, conflict, or a nonce, a sourced posting and a row together; Requests says when which |
| Withdrawals.WithdrawalTables.TransitionWithdrawal | packages/db/src/withdrawal.ts:148-206 | the row and posting of an outcome; anything not reserved is returned as it stands |
| Requests.RequestIsAnswered | packages/db/src/withdrawal.ts:51-127 | after any steps a request is granted exactly what it asked for, as a new reserved row of its wallet unless its key was known, and refused for its key iff the user's withdrawal under it is for another amount or contract; the wallet is not compared |
| Requests.RepeatedRequest | packages/db/src/withdrawal.ts:54-73 | a keyed request granted once is answered with the same withdrawal and nonce at any later time and changes nothing |
| Requests.OutcomeIsRecorded | packages/db/src/withdrawal.ts:148-206 | after any steps ending a reserved withdrawal succeeds and sets its status to the outcome; any other is returned as it stands |
| Requests.OutcomesAreFinal | packages/db/src/withdrawal.ts:148-206 | over all runs a withdrawal changes nothing but its status, and not even that once it is completed or released |
| Balances.CreditKeepsBank | packages/db/src/chain.ts:244-307 | crediting a deposit never fails and keeps every balance equation |
| Balances.RewindKeepsBank | packages/db/src/chain.ts:383-401 | what a rewind reverses can always be reversed, and the equations hold after it |
| Balances.ReserveKeepsBank | packages/db/src/withdrawal.ts:54-127 | a new reservation fails for funds if and only if escrow holds less than the amount, a replay never does, and the equations hold after either |
| Balances.TransitionKeepsBank | packages/db/src/withdrawal.ts:155-198 | settling or releasing a reserved withdrawal never fails, for funds or otherwise |
| Balances.Web3Equations | packages/db/src/withdrawal.ts:54-198 | after any steps escrow is credits less reserved and completed withdrawals, reserved is the reserved ones, the treasury is completed less credited, and no reference was posted twice |
| Nonces.NoncesGapless | packages/db/src/withdrawal.ts:73-91 | over any run the vouchers of one contract and wallet carry exactly the nonces below the next one, later ones higher; a refused reservation uses none up |
| RoomLocks.LockStore.Queue | apps/poker-api/src/game/table-runtime.ts:40-47 | a newcomer waits for what the map held and becomes the entry |
| RoomLocks.LockStore.Release | apps/poker-api/src/game/table-runtime.ts:50-54 | a finishing task removes the entry iff it is still its own |
| RoomLocks.Mutex | apps/poker-api/src/game/table-runtime.ts:40-55 | in all orders a room runs one task at a time, starts tasks in arrival order, and has an entry exactly while a task is unfinished |
| RoomLocks.FirstWaiterMayStart | apps/poker-api/src/game/table-runtime.ts:47-50 | a waiting task with nothing unfinished before it in its room can start |

## Left out

- Card text codes and their parsing (`parseCard`): cards are rank and suit, so `Cards.ValidateDeck` checks for repeats only.
- Non-integer amounts: chips are integers, so the integer checks of the engine always pass.
- `headsUpHand`: a constructor without cards, used by tests.
- `addOn`: it would put chips before a player who was not dealt in, whom the state check wants to hold cards.
- Seats other than array positions: `nextActivePlayer` indexes players by seat, so dealing a next hand asks for seats in array order, which the first hand establishes and every step keeps.
- Hole cards of the state check are read in seat order, where the source reads them in insertion order; whether a card repeats does not depend on it.
- Encryption of snapshots and hashing of payloads: a snapshot that does not decrypt is not modelled.
- Malformed stored states and events: rows hold well-typed states, so the shape checks of recovery reduce to those on values.
- Seat membership, room lookup, identities, sockets, timers and broadcasting of the gateway, and when it decides to deal a next hand; the deadline of an action is a parameter, and a timer is a timeout handler that may start at any time.
- The handlers that deal a hand (`join`, `startNextHand`): creating the hand and setting the runtime is one step under the room's lock, and the hand is dealt live; a recovery on their way is one without the lock, which allows it more interleavings.
- Taking and leaving a seat: each is one step that adds or drops the seat row, with the operation of a leave and the runtime entry it clears; buy-in limits, seat numbers and the ledger postings of buy-ins and cash-outs are not modelled.
- An empty idempotency key of a withdrawal, which the source treats as none when it looks for it and stores when it does not find it.
- Retry loops and the lookup after a unique-key conflict: each serializable transaction and each query is one atomic step, and other steps come between them; the newest snapshot and its hand's row are one query.
- The signature of a withdrawal voucher, its deadline, and the chain transaction hash stored when it completes.
- The public `rewind(fromBlock)` for an arbitrary block, and reorganisations in the middle of one synchronisation: each worker reads one snapshot of the chain, and rewinds come from `syncLocked`.
- More than one chain id, and zero-amount deposits, which the ledger refuses.
- Address normalisation: wallets and contracts are the strings stored.
- Other writers of the ledger beside deposits and withdrawals are outside the balance equations; `Ledger.PostAllKeepsBooks` covers any posting.
- `LockStore` keeps every finished task in its list, where the source lets finished promises go; the map is as in the source.
- Agents, translations, table views and all web code.
