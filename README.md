# A verified model of a Texas Hold'em engine

This project models the core of a Python Texas Hold'em engine, written in Dafny, and proves properties of that model. The repository has grown through three versions (v1 `core_game_logic`, `v2`, `v3`), an application controller and a set of AI-player utilities. Each module below follows one source file of those versions.

- **Side pots and payouts** (`side_pots.dfy`, `pot_manager.dfy`, from `v2/core/pot.py`).
  - Side-pot construction and its validator.
  - Collecting bets into tiers, with the uncontested excess refunded.
  - Awarding pots with odd chips to the lowest seats.
  - Pot integrity.
- **Action validation** (`validator.dfy`, from `v2/core/validator.py`).
  - Each action is normalised: CALL may become CHECK or ALL_IN, BET may become ALL_IN, RAISE may become ALL_IN.
  - The list of available actions.
- **Per-hand state** (`players.dfy`, `seating.dfy`, `phases.dfy`, `core_game_state.dfy`, `v2_state.dfy`).
  - Phase order, clockwise seating and blinds.
  - Betting-round completion, collecting bets and rolling back a phase transition.
  - Dealing and snapshots of the v2 state.
- **Controllers** (`v2_controller.dfy`, `core_game_controller.dfy`, `app_controller.dfy`).
  - Starting a hand, posting blinds, applying actions and advancing phases.
  - Settling the leftover pot and rotating the dealer.
  - The `atomic` rollback and snapshot versioning of the application controller.
- **The v3 betting engine** (`betting_engine.dfy`) over a chip ledger.
- **The v3 phase state machine** (`phase_handlers.dfy`): the transition table and the handlers' effects on the game context.
- **Invariant and health checkers** (`betting_rules_checker.dfy`, `phase_consistency_checker.dfy`, `health_checker.dfy`, `validation_service.dfy`). Each is a function from a state to its list of issues, with lemmas saying exactly when it passes.
- **Stores and registries** (`command_service.dfy`, `query_service.dfy`, `snapshot_manager.dfy`, `event_bus.dfy`, `test_stats_service.dfy`).
  - The game-session registry and its queries.
  - The bounded snapshot history.
  - The AI players' priority-ordered event bus.
  - Per-session test statistics.

`common.dfy` holds the shared vocabulary: `Option`/`Result`, cards, sums and counts, and stable insertion sort. `snapshot_types.dfy` holds the v3 snapshot records and the verdict type shared by the invariant checkers.

Objects that the source updates in place are classes. Their fields are `seq`s and `map`s, and their methods carry `modifies` clauses. Their `ensures` tie the new state to the old one, through a specification function or predicate where one operation calls several others (`Advanced`, `PhaseAdvanced`, `ActionTaken`). The parts of a new state that a method leaves unstated are listed under "## Left out". Pure computations are functions. Loops in the source are methods with loop invariants, proved against a specification function.

Some collaborators are not part of this model, and each becomes a parameter of the operation that calls it:
- the clock, `uuid`;
- the v3 state machine's transition, the invariant checker's verdict;
- the action validator used by the betting engine;
- event handlers and filters.

The deck is a sequence of distinct cards, handed in already shuffled. Floating-point settings become integers or rationals: the validation service's `min_raise_multiplier` is `minRaiseNum/minRaiseDen`, and the pot-consistency tolerance of 0.01 is exact on integer chips.

Different versions of the source disagree. The model follows each version as written and states the disagreement as lemmas rather than reconciling it. The exception is the three bugs under "## Findings": each is modelled as written next to a corrected definition. Where the rest of the model uses the corrected one, "## Left out" names the members that do. For example, versions disagree on these:
- FINISHED may go on to PRE_FLOP or INIT in the phase handlers, to nothing in the phase-consistency checker, and only to INIT in the validation service.
- PRE_FLOP→SHOWDOWN is allowed by one table and refused by another.

## Model

| member | source | states |
|---|---|---|
| Players.Bet | tests/unit/test_player.py:100-161 | a negative amount or a player who cannot act is an error; otherwise the player puts in min(amount, chips), chips + bet is unchanged, and the player is ALL_IN exactly when no chips remain |
| Players.AddChips | tests/unit/test_player.py:252-277 | a negative amount is an error; otherwise chips grow by the amount and an OUT player becomes ACTIVE |
| Players.Fold | tests/unit/test_player.py:185-202 | folding succeeds exactly for an ACTIVE or ALL_IN player and changes only the status |
| Players.ResetForNewHand | tests/unit/test_player.py:279-311 | cards, bet and last action are cleared; the player is OUT iff broke and ACTIVE otherwise; chips, seat and dealer flag stay |
| Players.ResetCurrentBet | tests/unit/test_player.py:279-295 | only the current bet and the last action are cleared |
| Players.IndexOfSeat | core_game_logic/game/game_state.py:78-91 | the first player at the seat, or none exactly when no player sits there |
| Players.ChipsAndBetsAfterUpdate | tests/unit/test_player.py:237-250 | replacing one player by one with the same chips + bet keeps the table's chips + bets |
| SidePots.NewSidePot | v2/core/pot.py:30-44 | a side pot is built iff its amount is non-negative and its eligible list is non-empty and duplicate-free; a negative amount is the error reported first |
| SidePots.CalculateSidePots | v2/core/pot.py:64-124 | the pots are exactly the layer split `SidePotsOf` of the positive contributions in stable ascending order |
| SidePots.SortedContributionsFacts | v2/core/pot.py:91-100 | the contributions that enter the split are all positive and ascending |
| SidePots.LayersTotal | v2/core/pot.py:102-122 | the layers hold every chip above the starting level except the top contributor's uncontested excess |
| SidePots.LayersPositive | v2/core/pot.py:105-119 | every pot built from ascending levels holds a positive amount, so the side-pot constructor never rejects it |
| SidePots.LayersContested | v2/core/pot.py:113-119 | every pot has at least two eligible seats |
| SidePots.EligibleListsNested | v2/core/pot.py:100-118 | each pot's eligible list is a strict suffix of the previous pot's list |
| SidePots.FewContributorsNoPots | v2/core/pot.py:88-115 | with at most one positive contribution no pot is formed |
| SidePots.ZeroContributionsIgnored | v2/core/pot.py:91-92 | dropping zero contributions beforehand yields the same pots |
| SidePots.ThreeWayExample | v2/core/pot.py:82-86 | contributions 25/50/100 give 75 for seats 0,1,2 and 50 for seats 1,2 |
| SidePots.PotsPlusExcess | v2/core/pot.py:181-186 | the pots plus the gap between the two largest contributions equal the total contributed, and that gap is non-negative |
| SidePots.MaxAmount | v2/core/pot.py:191 | the maximum is one of the contributions and bounds all of them |
| SidePots.ExcessHasUniqueOwner | v2/core/pot.py:188-194 | a positive excess has exactly one contributor at the maximum level |
| SidePots.GetPotDistributionSummary | v2/core/pot.py:163-203 | summary pots are the split; pots + returned = contributed; a player is named iff something is returned, and that player is a top contributor; `validation_passed` is the as-written validator's verdict on the pots, which is false exactly when there is one contributor and a positive amount |
| SidePots.ValidateSidePotCalculationAsWritten | v2/core/pot.py:127-160 | the verdict of the validator as written: the smallest value times every player, then the tier differences while more than one player remains |
| SidePots.AsWrittenRejectsLoneContributor | v2/core/pot.py:140-160 | for one positive contributor the split is empty, yet the validator as written rejects it |
| SidePots.ValidateSidePotCalculation | v2/core/pot.py:127-160 | the corrected validator's verdict: the first tier also needs more than one player |
| SidePots.ExpectedTotal | v2/core/pot.py:147-158 | the corrected expected total is the sum of the values minus the gap between the two largest |
| SidePots.CalculationValidates | v2/core/pot.py:127-160 | the corrected validator accepts every split that `calculate_side_pots` produces |
| SidePots.AsWrittenAgrees | v2/core/pot.py:148-160 | with no contribution or with two or more, the validator as written and the corrected one give the same verdict on any pots |
| SidePots.SummaryVerdict | v2/core/pot.py:127-160 | on the split `calculate_side_pots` produces, the validator as written accepts iff there is not exactly one contributor with a positive amount |
| PotManagement.SharesSplitPot | v2/core/pot.py:367-381 | `pot // n` to every winner plus one odd chip to each of the first `pot % n` add up to exactly the pot |
| PotManagement.SharesFair | v2/core/pot.py:371-377 | two winners' shares differ by at most one chip, and a lower seat never gets less |
| PotManagement.CreditFacts | v2/core/pot.py:299-303 | crediting a seat changes only that seat's chips, by exactly the amount, and the table's chips grow by it |
| PotManagement.RoundFacts | v2/core/pot.py:250-263 | the round's entries are the positive bets of seated players and add up to all bets; clearing bets keeps chips |
| PotManagement.AddContributionsStep | v2/core/pot.py:257-260 | adding a bet grows that seat's running contribution by the bet and changes no other seat |
| PotManagement.AllEqualNoExcess | v2/core/pot.py:273-276 | two or more equal positive bets leave no uncalled excess, so sending them all to the main pot loses nothing |
| PotManagement.EntryError | v2/core/pot.py:352-364 | a rejected entry raises the empty-winners error exactly when it names no winner; otherwise the bad-index `ValueError` when the index is past the last side pot, and Python's `IndexError` when a negative index reaches past the first; the error carries that pot index |
| PotManagement.AcceptedPrefix | v2/core/pot.py:351-364 | the entries before the returned position are accepted, and the entry at it (if any) is rejected |
| PotManagement.PayWinnersPaysPot | v2/core/pot.py:367-384 | paying all winners of one pot adds exactly the pot to the table's chips |
| PotManagement.PayPot | v2/core/pot.py:367-384 | the seat-order payment loop gives the same players and awards as the share function |
| PotManagement.PayEntriesFacts | v2/core/pot.py:351-384 | paying accepted entries changes only chips, each seat by its recorded award, the table by what the named pots held |
| PotManagement.SplitRoundConserves | v2/core/pot.py:269-297 | a round's chips all land in the main pot, in new side pots or in the refund, and no part is negative |
| PotManagement.SplitRoundRefund | v2/core/pot.py:273-297 | a refund happens iff the bets are unequal and the top contributor is uncalled; it is the gap between the top two and goes to a top contributor |
| PotManagement.ReturnPlayerOwnsMax | v2/core/pot.py:291-296 | the lowest seat among the top contributors did contribute the maximum |
| PotManagement.DivideRound | v2/core/pot.py:269-297 | the tier work of one round equals the round-split function: first tier to the main pot, the rest as side pots, the excess refunded |
| PotManagement.PotManager.constructor | v2/core/pot.py:214-222 | a new manager has empty pots, no contributions and nothing collected |
| PotManagement.PotManager.IntegrityMeansNothingLeft | v2/core/pot.py:429-447 | `validate_pot_integrity()` without a total holds iff no collected chip has been refunded or paid out |
| PotManagement.PotManager.Reset | v2/core/pot.py:419-427 | pots, contributions and the collected total are all cleared |
| PotManagement.PotManager.AddRound | v2/core/pot.py:268-297 | the main pot and side pots grow exactly as the round split says, and the refund is the split's refund |
| PotManagement.PotManager.CollectFromPlayers | v2/core/pot.py:233-305 | contributions, collected total and pots grow by the round's bets as split; players end with bets cleared and the refund on its owner |
| PotManagement.PotManager.AwardPots | v2/core/pot.py:329-390 | accepted entries are paid in order, a negative index naming a side pot from the end; the result is the awards iff every entry is accepted, then both pots are empty; otherwise the first bad entry's error with the pots unchanged |
| PotManagement.PayAllEntries | v2/core/pot.py:351-384 | the entry loop stops at the first rejected entry, having paid exactly the entries before it |
| PotManagement.AwardPotsPays | v2/core/pot.py:329-390 | awarding changes only chips: each seat gains its award and the table gains what the paid pots held |
| PotManagement.TakeBets | v2/core/pot.py:250-266 | the bet loop clears every bet, records the positive ones as the round, and adds them to the contributions and the collected total |
| PotManagement.CollectConserves | v2/core/pot.py:233-305 | collecting keeps chips + bets + the round's pots constant, zeroes every bet, keeps seats, and grows only the refunded seat's chips |
| PotManagement.RefundGoesToTopContributor | v2/core/pot.py:288-303 | the refunded seat is at the table and contributed the round's maximum |
| PotManagement.AllocateSidePots | v2/core/pot.py:316-327 | `allocate_side_pots` returns the split of `calculate_side_pots`: nested, positive pots with two or more contenders |
| ActionValidation.CallAmount | v2/core/validator.py:385-396 | what the player still owes: never negative, and either zero or the standing bet minus the player's bet |
| ActionValidation.Validate | v2/core/validator.py:71-383 | status, turn and a positive BET/RAISE amount are checked first; FOLD always passes; CHECK iff nothing is owed; CALL becomes CHECK, ALL_IN for the chips, or CALL for the amount owed; BET iff no bet stands and at least the big blind, ALL_IN when short; RAISE needs a standing bet; the exact all-in total is accepted as ALL_IN iff it exceeds the standing bet, and otherwise a raise from the minimum total up is accepted at its amount when covered, or as ALL_IN for the whole stack unless that leaves the player below the line (InsufficientChips), with anything below the minimum refused; ALL_IN iff chips, for the chips; converted iff the final type differs |
| ActionValidation.AcceptedIsAffordable | v2/core/validator.py:191-383 | every accepted action costs at most the player's chips this round |
| ActionValidation.AvailableActionsAsWritten | v2/core/validator.py:398-437 | as written: [] unless ACTIVE; FOLD; CHECK iff nothing owed, CALL otherwise; BET iff nothing owed and chips cover the big blind; RAISE iff owed, chips exceed it and cover the minimum raise; ALL_IN iff chips; no repeats |
| ActionValidation.OfferedBetRejectedAsWritten | v2/core/validator.py:243-247 | the big blind facing no raise is offered BET, yet every BET it submits is rejected |
| ActionValidation.AvailableActions | v2/core/validator.py:398-437 | corrected: BET only when no bet stands, RAISE whenever a bet stands and the chips reach the minimum raise; otherwise as written |
| ActionValidation.OfferedActionsValidate | v2/core/validator.py:71-437 | on the player's turn every action the corrected list offers validates at its offered amount, converted only from CALL or RAISE to ALL_IN |
| ActionValidation.CheckOfferedIffValid | v2/core/validator.py:153-178 | CHECK is offered exactly when a CHECK validates |
| Phases.OrderIndex | core_game_logic/game/game_state.py:258-261 | the position of a phase in PRE_FLOP..SHOWDOWN, absent exactly for a phase outside that list |
| Phases.NextInOrder | core_game_logic/game/game_state.py:256-266 | one step along PRE_FLOP, FLOP, TURN, RIVER, SHOWDOWN; SHOWDOWN stays and any other phase becomes SHOWDOWN |
| Phases.AdvanceFromPreFlop | core_game_logic/game/game_state.py:256-266 | k advances from PRE_FLOP land on the k-th phase of the order |
| Phases.AdvanceReachesShowdown | core_game_logic/game/game_state.py:256-266 | from any phase, four or more advances end at SHOWDOWN |
| Phases.ShowdownStays | core_game_logic/game/game_state.py:262-263 | advancing from SHOWDOWN never leaves it |
| Phases.NameInjective | v3/application/query_service.py:505-522 | two phases have the same name iff they are the same phase |
| Seating.SortedSeats | core_game_logic/game/game_state.py:114 | the sorted seat list is increasing and holds exactly the players' seats |
| Seating.IndexOf | core_game_logic/game/game_state.py:115 | `list.index`: a position holding the value, absent exactly when the value is not listed |
| Seating.Scan | core_game_logic/game/game_state.py:118-127 | the seat loop finds the first step whose seat satisfies the test, or reports that none in range does |
| Seating.ScanIsClockwise | core_game_logic/game/game_state.py:113-127 | a lap over the sorted seats finds the first matching seat clockwise from the start, or shows no other seat matches |
| CoreGameState.ConfigCheck | core_game_logic/game/game_state.py:46-58 | the constructor accepts iff pot >= 0, current_bet >= 0, small blind > 0 and big blind > small blind, reporting the first failed check |
| CoreGameState.ExpectedBoard | core_game_logic/game/game_state.py:409-415 | a board size is expected exactly in the phases PRE_FLOP..SHOWDOWN |
| CoreGameState.BoardGrowsByStreet | core_game_logic/game/game_state.py:409-415 | each advance moves the expected board from 0 to 3, 4, 5 and 5 cards |
| CoreGameState.InvariantCheck | core_game_logic/game/game_state.py:387-425 | the state is accepted iff its phase expects no board size or the board has exactly the expected size; the error names the phase and the actual count |
| CoreGameState.ResetBetsFacts | core_game_logic/game/game_state.py:190-192 | clearing every bet keeps seats distinct and chips unchanged and leaves no bet |
| CoreGameState.FreshStreet | core_game_logic/game/game_state.py:185-192 | once every bet is cleared, all ACTIVE players stand at the same bet |
| CoreGameState.InPlaySeats | core_game_logic/game/game_state.py:285 | the sorted seats of exactly the non-OUT players |
| CoreGameState.BlindSeats | core_game_logic/game/game_state.py:285-296 | blind seats exist iff the dealer is a non-OUT seat, and both are non-OUT seats |
| CoreGameState.BlindSeatsClockwise | core_game_logic/game/game_state.py:285-296 | alone the dealer posts both; heads-up the dealer is the small blind and the next non-OUT seat the big; otherwise the next two non-OUT seats clockwise |
| CoreGameState.HeadsUpBlinds | core_game_logic/game/game_state.py:288-292 | heads-up the dealer posts the small blind and the other non-OUT seat the big blind |
| CoreGameState.RingBlinds | core_game_logic/game/game_state.py:293-296 | with three or more non-OUT seats the blinds are the next two non-OUT seats clockwise |
| CoreGameState.PostOne | core_game_logic/game/game_state.py:298-308 | only the player at the seat changes: flagged, betting min(amount, chips), seat and stack kept, refused iff the player cannot act |
| CoreGameState.PostSeatFacts | core_game_logic/game/game_state.py:298-308 | one posting keeps every seat and stack, fails iff the player's bet raises, otherwise changes players as the single-player posting says |
| CoreGameState.Blinded | core_game_logic/game/game_state.py:279-308 | after clearing and posting, exactly the blind seats carry the flags, stacks are unchanged, and each blind bets min(blind, chips) |
| CoreGameState.BlindSeatsIgnoreFlags | core_game_logic/game/game_state.py:279-286 | clearing the blind flags first does not move the blind seats |
| CoreGameState.OneFlagEach | core_game_logic/game/game_state.py:279-308 | exactly one player carries the small-blind flag and exactly one the big-blind flag |
| CoreGameState.GameState.Create | core_game_logic/game/game_state.py:46-58 | construction fails iff a check fails, with the first failing check's error; otherwise the state holds exactly the given values |
| CoreGameState.GameState.AdvanceCurrentPlayer | core_game_logic/game/game_state.py:102-127 | True moves the turn to the first seat clockwise that can act; otherwise the turn stays, and False means nobody is ACTIVE or no other seat can act; an unlisted current seat raises |
| CoreGameState.GameState.SetFirstToAct | core_game_logic/game/game_state.py:206-222 | the first seat after the dealer that can act, else the dealer; an unlisted dealer raises |
| CoreGameState.GameState.SetPostflopFirstToAct | core_game_logic/game/game_state.py:224-254 | the first seat that can act, counting from the small blind (heads-up the big blind), else the dealer; nothing happens without non-OUT seats |
| CoreGameState.GameState.IsBettingRoundComplete | core_game_logic/game/game_state.py:129-176 | true with at most one ACTIVE player, false when ACTIVE bets differ; otherwise action is back at the last raiser, or the big-blind option has been used, or the street count has reached the ACTIVE players |
| CoreGameState.GameState.StartNewBettingRound | core_game_logic/game/game_state.py:178-204 | bet, raiser, count and every player's bet are cleared; the turn goes to the given player or by the pre-flop or post-flop rule; with two or more ACTIVE players the new street is not complete |
| CoreGameState.GameState.AdvancePhase | core_game_logic/game/game_state.py:256-266 | only the phase changes, by one step of the phase order |
| CoreGameState.GameState.CollectBetsToPot | core_game_logic/game/game_state.py:268-272 | the pot grows by exactly the bets, every bet is cleared, pot + bets and total chips are unchanged |
| CoreGameState.GameState.SetBlinds | core_game_logic/game/game_state.py:274-309 | with two or more players the blind seats are flagged and post, and current_bet becomes the big blind; an unlisted dealer or a refused blind raises; seats and stacks never change |
| CoreGameState.GameState.PhaseTransition | core_game_logic/game/game_state.py:428-464 | the transition's result is kept iff the block finished and the invariants hold; otherwise the state before is restored and the error reported |
| CoreGameState.GameState.constructor | core_game_logic/game/game_state.py:367-375 | a new state object holding exactly the given (accepted) state value, as a deep copy does |
| CoreGameState.GameState.Restore | core_game_logic/game/game_state.py:456 | every field takes the snapshot's value, so the state is the snapshot again |
| CoreGameState.GameState.BigBlindOption | core_game_logic/game/game_state.py:155-173 | pre-flop, when the first flagged big blind who can act still stands at the current bet, the round is complete iff that player has acted; otherwise the option does not decide |
| CoreGameState.GameState.ResetStreet | core_game_logic/game/game_state.py:185-192 | the bet, the raiser and the count are cleared and every player's bet is reset; nothing else changes |
| CoreGameState.GameState.ClearBlindFlags | core_game_logic/game/game_state.py:279-283 | every player loses both blind flags; nothing else changes |
| CoreGameState.GameState.PostBlind | core_game_logic/game/game_state.py:298-308 | only the player at the seat is flagged and bets, exactly as `PostSeat` describes |
| CoreGameState.GameState.PostBlinds | core_game_logic/game/game_state.py:298-309 | seats and stacks are kept; both blinds post or the first refusal is reported; after both, the current bet is the big blind |
| V2State.RemoveSeat | v2/core/state.py:289-303 | no player at the seat leaves the table as it was; otherwise the first player there is removed and returned and the others keep their order |
| V2State.RemoveAfterAdd | v2/core/state.py:274-303 | removing the seat just added gives back the table and the player |
| V2State.RemoveKeepsSeats | v2/core/state.py:289-303 | removal keeps seats unique and leaves the seat empty |
| V2State.GameState.Create | v2/core/state.py:173-185 | construction fails iff pot < 0, current_bet < 0, small blind <= 0 or big blind <= small blind, with the first failing check's error; otherwise the state holds the given values with no players and no deck |
| V2State.GameState.constructor | v2/core/state.py:135-171 | the new state's snapshot is exactly the given one, with the given deck |
| V2State.GameState.RestoreFromSnapshot | v2/core/state.py:214-232 | every snapshotted field is put back, so the next snapshot equals the restored one; the deck stays |
| V2State.GameState.AddPlayer | v2/core/state.py:274-287 | an occupied seat is an error and changes nothing; otherwise the player is appended and nothing else changes |
| V2State.GameState.RemovePlayer | v2/core/state.py:289-303 | the players and the returned player are as the seat removal says; nothing else changes |
| V2State.GameState.InitializeDeck | v2/core/state.py:305-315 | the deck becomes the given shuffled sequence and nothing else changes |
| V2State.GameState.DealHoleCards | v2/core/state.py:317-337 | a missing deck or fewer than two cards per non-OUT player is an error that changes nothing; otherwise each non-OUT player gets the next two cards in list order and the deck shrinks by exactly those cards |
| V2State.GameState.DealRound | v2/core/state.py:331-335 | the deal loop hands each non-OUT player two cards off the front of the deck; dealt cards followed by the rest are the deck |
| V2State.GameState.DealCommunityCards | v2/core/state.py:339-375 | no deck is an error; count <= 0 changes nothing; otherwise a card is burnt and count cards join the board, or the deck runs out with an error and the cards dealt so far stay on the board |
| V2State.GameState.CollectBetsToPot | v2/core/state.py:377-392 | returns the sum of the bets, the pot grows by exactly it, every bet is cleared and chips are unchanged |
| V2State.GameState.ResetBettingRound | v2/core/state.py:394-403 | current bet, raiser, last raise, street count and every player's bet are cleared; nothing else changes |
| V2State.GameState.AdvancePhase | v2/core/state.py:405-417 | only the phase changes, by one step along PRE_FLOP..SHOWDOWN, SHOWDOWN for anything else |
| V2State.GameState.DealNext | v2/core/state.py:332-335 | one turn of the deal loop: a non-OUT player takes the next two cards off the deck, nobody else changes, and chips and bets stay |
| V2Controller.HeadsUpPositions | v2/controller/poker_controller.py:277-305 | heads-up, the dealer posts the big blind, the other player the small blind and acts first |
| V2Controller.RingPositions | v2/controller/poker_controller.py:277-305 | with two or more players the blinds fall on different list indices; from three players on, the first to act sits right after the big blind |
| V2Controller.PostBlindAt | v2/controller/poker_controller.py:282-294 | a player who cannot cover the blind is skipped untouched; otherwise the blind moves from chips to bet and the player is flagged small or big blind; nobody else changes; the bet fails exactly when the player may not bet |
| V2Controller.PostedBlinds | v2/controller/poker_controller.py:271-294 | posting both blinds keeps every seat and hole card and the total of chips plus bets, and reports whether the big blind was posted |
| V2Controller.BlindPayments | v2/controller/poker_controller.py:282-294 | the small-blind and big-blind players each add their blind to their bet exactly when they can afford it, and every other player is unchanged |
| V2Controller.SearchActive | v2/controller/poker_controller.py:364-370 | the search answers the first distance ahead of the start landing on an ACTIVE player, with every nearer one not ACTIVE, or none when no distance up to n lands on one |
| V2Controller.NextActiveIndex | v2/controller/poker_controller.py:355-373 | the next ACTIVE index, wrapping, is ACTIVE and every index passed over is not; it is None exactly when no player is ACTIVE |
| V2Controller.ScanActive | v2/controller/poker_controller.py:364-373 | the loop returns the index `NextActiveIndex` specifies |
| V2Controller.Applied | v2/controller/poker_controller.py:307-350 | an action for a seat nobody holds is refused; an applied action leaves the pot and the board alone |
| V2Controller.AppliedKeepsChips | v2/controller/poker_controller.py:307-350 | an applied action keeps every seat and the total of chips plus bets |
| V2Controller.AppliedTouchesActor | v2/controller/poker_controller.py:307-350 | only the acting player's entry changes, and it keeps its seat and its stack |
| V2Controller.CallMatches | v2/controller/poker_controller.py:320-326 | a CALL the player can cover leaves its bet at least the standing bet, which does not move |
| V2Controller.RaiseIsIncrement | v2/controller/poker_controller.py:334-340 | RAISE adds its amount to the standing bet and records the raiser and the increment |
| V2Controller.AllInTopsUp | v2/controller/poker_controller.py:343-349 | ALL_IN empties the stack and marks the player ALL_IN; the standing bet becomes the larger of itself and the player's bet, and a raise records the raiser |
| V2Controller.StreetKeepsBoardSize | v2/controller/poker_controller.py:400-411 | dealing 3, 1 and 1 cards on leaving PRE_FLOP, FLOP and TURN brings the board to the size the next phase expects |
| V2Controller.FreshHandCounts | v2/controller/poker_controller.py:258-259 | clearing the street's bets keeps who is OUT, every stack and seat, and leaves no bet |
| V2Controller.NewHandFacts | v2/controller/poker_controller.py:250-267 | the street reset, the deal, the blinds and the first player together give a new-hand table: PRE_FLOP, empty board, two cards to everyone not OUT, the chips conserved, the big blind standing if posted |
| V2Controller.PokerController.constructor | v2/controller/poker_controller.py:73-90 | the controller wraps the given state with no hand in progress |
| V2Controller.PokerController.StartNewHand | v2/controller/poker_controller.py:107-121 | refused while a hand runs; false and nothing changed with fewer than two ACTIVE players holding chips; a deal the deck cannot serve fails; otherwise a new-hand table with the hand in progress |
| V2Controller.PokerController.ResetForNewHand | v2/controller/poker_controller.py:250-267 | the deal fails exactly when the deck is short of two cards for each player not OUT; otherwise the table is a new-hand table with the dealer unmoved |
| V2Controller.PokerController.PostBlinds | v2/controller/poker_controller.py:271-294 | with fewer than two players nothing changes; otherwise the players become `PostedBlinds`' and the standing bet the big blind when it was posted |
| V2Controller.PokerController.SetFirstPlayer | v2/controller/poker_controller.py:297-305 | only the current player changes, to `FirstPlayerIndex` |
| V2Controller.PokerController.EndHand | v2/controller/poker_controller.py:227-248 | nothing without a hand; otherwise the hand ends and the result reports the pot and no winners |
| V2Controller.PokerController.CurrentPlayerId | v2/controller/poker_controller.py:167-201 | a current player is reported only while the hand runs and is not over (over: no hand, at most one ACTIVE or ALL_IN player, SHOWDOWN, or RIVER with every bet matched) |
| V2Controller.PokerController.ApplyAction | v2/controller/poker_controller.py:307-353 | a refused action changes nothing; otherwise the table becomes the applied action's with the turn passed on |
| V2Controller.PokerController.Act | v2/controller/poker_controller.py:307-350 | the branches of the action leave the table as `Applied` specifies, or unchanged with its error |
| V2Controller.PokerController.AdvanceToNextPlayer | v2/controller/poker_controller.py:355-373 | with a current player the turn passes to `NextActiveIndex` after it; nothing else changes |
| V2Controller.PokerController.AllActionsComplete | v2/controller/poker_controller.py:380-393 | true iff every ACTIVE player's bet has reached the standing bet |
| V2Controller.PokerController.CheckPhaseTransition | v2/controller/poker_controller.py:375-378 | nothing changes until every ACTIVE player has matched; then the table and deck are exactly what `_advance_to_next_phase` leaves (`PhaseAdvanced`): pot, bets, phase, board, deck, street reset and player to act |
| V2Controller.PokerController.AdvanceToNextPhase | v2/controller/poker_controller.py:395-416 | the new table and deck are `PhaseAdvanced` of the old: the bets go to the pot with chips conserved; the phase steps on and the street's board cards come off the deck, failing exactly when the deck is missing or short, with the partial deal left; short of SHOWDOWN the street restarts with the first ACTIVE player after the dealer |
| V2Controller.PokerController.StepAndDeal | v2/controller/poker_controller.py:400-411 | only the phase, the board and the deck change: one phase on, and the board, deck and error as `deal_community_cards` leaves them (`CommunityDealt`) |
| V2Controller.PokerController.SetFirstPlayerForNewRound | v2/controller/poker_controller.py:418-431 | only the current player changes, to the first ACTIVE index after the dealer, or None |
| CoreGameController.SettledAt | core_game_logic/game/game_controller.py:69-74 | a player in the hand receives pot//n plus one odd chip when ranked among the first pot%n; the others receive nothing |
| CoreGameController.SettledPrefix | core_game_logic/game/game_controller.py:69-74 | the first k players together receive c base shares and min(c, pot%n) odd chips, c being how many of them are in the hand |
| CoreGameController.SettledPaysPot | core_game_logic/game/game_controller.py:58-75 | sharing the leftover pot moves only chips and only to players in the hand; with someone in the hand the shares add up to the pot, and a lone player takes all of it |
| CoreGameController.SettledTotal | core_game_logic/game/game_controller.py:69-74 | the shares add up to the whole pot |
| CoreGameController.SettleLeftover | core_game_logic/game/game_controller.py:58-75 | the loop gives each player the share `Settled` specifies |
| CoreGameController.FreshHand | core_game_logic/game/game_controller.py:78-79 | every player is reset for the new hand, one by one |
| CoreGameController.ClearedConserves | core_game_logic/game/game_controller.py:54-87 | clearing the table keeps seats and leaves no bet; with a player in the hand the chips grow by exactly the bets and the pot, otherwise they stay; every player has no cards and is ACTIVE iff holding chips, OUT otherwise |
| CoreGameController.SweptAndSettled | core_game_logic/game/game_controller.py:54-75 | sweeping the bets and sharing out the pot keeps seats and pays the whole pot to the players in the hand, or nothing when nobody is in it |
| CoreGameController.FreshHandFacts | core_game_logic/game/game_controller.py:78-79 | resetting every player keeps seats and chips, clears bets and cards, and leaves ACTIVE exactly the players with chips |
| CoreGameController.ChipsAhead | core_game_logic/game/game_controller.py:97-104 | the search answers the first distance ahead of the dealer reaching a player with chips, all nearer ones having none, or none when no distance up to n does |
| CoreGameController.NextDealerIndex | core_game_logic/game/game_controller.py:93-107 | the button moves to the first index after the dealer, wrapping, of a player with chips; it stays only when nobody holds chips |
| CoreGameController.OneDealer | core_game_logic/game/game_controller.py:110-111 | with unique seats and the dealer seated, exactly one player carries the dealer flag |
| CoreGameController.WithChips | core_game_logic/game/game_controller.py:90 | the listed indices are increasing, and an index is listed iff that player holds chips |
| CoreGameController.HolesDealtFacts | core_game_logic/game/game_controller.py:121-125 | the two dealing rounds give each listed player, in list order, one card from the front of the deck per round and change nothing else |
| CoreGameController.DealRound | core_game_logic/game/game_controller.py:122-125 | one round hands each listed player the next card from the front of the deck |
| CoreGameController.DealHoles | core_game_logic/game/game_controller.py:121-125 | the two rounds leave the players as `HolesDealt` specifies and the deck without its first 2n cards |
| CoreGameController.ReachedAsWritten | core_game_logic/game/game_controller.py:121-125 | as written, only listed players who still hold chips after the blinds are dealt cards |
| CoreGameController.AllInBlindDealtOut | core_game_logic/game/game_controller.py:114-125 | a big blind all in on its blind is still in the hand but is dealt no hole cards |
| CoreGameController.StartingPlayersDealt | core_game_logic/game/game_controller.py:90-125 | corrected: every player who held chips when the hand began ends with two hole cards, and nobody else is dealt |
| CoreGameController.StillPlayingInHand | core_game_logic/game/game_controller.py:589-594 | the players neither FOLDED nor OUT are exactly those ACTIVE or ALL_IN |
| CoreGameController.RecentEvents | core_game_logic/game/game_controller.py:366-378 | nothing for count <= 0, otherwise the newest min(count, all) events, in order |
| CoreGameController.ActingIndex | core_game_logic/game/game_controller.py:199-213 | no active phase is an error; the actor is the given seat or else the current player; an unknown seat is an error naming it, and otherwise the index of that seat |
| CoreGameController.GameController.constructor | core_game_logic/game/game_controller.py:22-36 | a controller over the state, with a phase object exactly when the state is at PRE_FLOP |
| CoreGameController.GameController.TotalPot | core_game_logic/game/game_controller.py:469-478 | the centre pot plus every bet still in front of a player; `SweepKeepsTotalPot` shows collecting the bets leaves it unchanged |
| CoreGameController.SweepKeepsTotalPot | core_game_logic/game/game_controller.py:469-478 | the total pot, centre plus bets in front of the players, is the same before and after the bets are swept into the centre |
| CoreGameController.GameController.HandOverAgrees | core_game_logic/game/game_controller.py:582-601 | the hand is over whenever the game cannot continue, and outside SHOWDOWN exactly then |
| CoreGameController.GameController.ClearTable | core_game_logic/game/game_controller.py:54-87 | the table becomes `Cleared`: bets in the pot, the pot shared, players reset, pot, bet, board and street cleared |
| CoreGameController.GameController.MoveDealer | core_game_logic/game/game_controller.py:93-107 | a dealer not seated is an error; otherwise the button moves to the seat `NextDealerIndex` gives, and stays when nobody holds chips; nothing else changes |
| CoreGameController.GameController.OpenHand | core_game_logic/game/game_controller.py:89-129 | the button moves, one dealer is flagged, the blinds are posted, two cards go to every player who held chips before the blinds (the corrected deal), and the hand opens at PRE_FLOP |
| CoreGameController.GameController.MarkAndPost | core_game_logic/game/game_controller.py:109-114 | flags and blinds keep seats and chips in play, leave one dealer and the big blind standing |
| CoreGameController.GameController.DealStage | core_game_logic/game/game_controller.py:116-129 | the listed players are dealt as `HandedOut` says, with no per-player chip test (the corrected deal), the deck keeps the rest, and the phase is PRE_FLOP |
| CoreGameController.GameController.StartNewHand | core_game_logic/game/game_controller.py:49-129 | with fewer than two players holding chips the table is just cleared; otherwise PRE_FLOP with an empty pot and board, the big blind standing, one dealer, and the players in the hand exactly those who held chips, each with two cards (the corrected deal); chips plus bets plus pot are conserved |
| CoreGameController.MarkedAndPosted | core_game_logic/game/game_controller.py:109-114 | marking the dealer and posting the blinds keep every seat, the chips in play and the hole cards, and leave one dealer |
| CoreGameController.HandedOutKeeps | core_game_logic/game/game_controller.py:121-125 | a deal keeps every seat, every stack and every dealer flag |
| CoreGameController.DealtInHand | core_game_logic/game/game_controller.py:90-125 | corrected deal: after the blinds and the deal, the players in the hand are exactly those who held chips, each with two hole cards |
| AppController.ActionsDetail | app_controller/poker_controller.py:508-606 | nothing for a missing player or one who cannot act; otherwise FOLD first, CHECK iff nothing is owed, CALL of what is owed iff the stack more than covers it, BET of the big blind iff nothing is owed and the stack covers it, RAISE to the standing bet plus the big blind iff something is owed and the stack covers it, and ALL_IN of the whole stack |
| AppController.MenuParts | app_controller/poker_controller.py:527-604 | the exact menu, in order, in each of the eight cases of what is owed and what the stack covers |
| AppController.MenuAmounts | app_controller/poker_controller.py:527-604 | every offer of a kind carries that kind's one amount: the call owed, the big blind, the minimum raise, or the whole stack |
| AppController.MenuOneAllIn | app_controller/poker_controller.py:527-604 | ALL_IN is offered at most once |
| AppController.MenuCheckOrCall | app_controller/poker_controller.py:527-604 | CHECK and CALL are never offered together |
| AppController.DealerSeats | app_controller/poker_controller.py:453 | the candidate seats are increasing and are exactly the seats of players with chips |
| AppController.NextDealerRotates | app_controller/poker_controller.py:453-472 | the button goes to a player with chips, and to nobody only when nobody has chips; from a dealer with chips to the next chip seat clockwise; from a broke or missing dealer to the lowest chip seat |
| AppController.NoChipSeats | app_controller/poker_controller.py:453-458 | there are no candidate seats exactly when nobody holds chips |
| AppController.LowestDealerSeat | app_controller/poker_controller.py:463-467 | the fallback seat holds chips and is no larger than any chip seat |
| AppController.DealerStep | app_controller/poker_controller.py:461-467 | one step on in the sorted chip seats is the first chip seat clockwise after the dealer |
| AppController.Applied | app_controller/poker_controller.py:223-259 | an applied action changes only the actor (who keeps their seat), the standing bet (never lowered) and the raise record, and conserves chips plus bets; CHECK changes nothing |
| AppController.FoldedAt | app_controller/poker_controller.py:226-227 | FOLD succeeds iff the player is in the hand, and then only the status becomes FOLDED |
| AppController.PaidTo | app_controller/poker_controller.py:234-245 | the amount is the new TOTAL bet: below the player's own bet it is refused as negative, a player who cannot act is refused; otherwise the bet becomes the amount capped at the stack, a larger amount becomes the standing bet, and only a RAISE above it records the raiser and the increment |
| AppController.AllInAt | app_controller/poker_controller.py:249-259 | ALL_IN succeeds iff the player can act; the stack goes into the bet, the status is ALL_IN, and a total above the standing bet becomes it and records the raiser and the increment |
| AppController.WithActor | app_controller/poker_controller.py:223-259 | replacing the actor with a player holding the same stack at the same seat conserves chips plus bets |
| AppController.LineTo | app_controller/poker_controller.py:240-245 | the standing bet becomes the larger of itself and the new total, and the raise is recorded only when asked and the total is larger |
| AppController.StreetDeal | app_controller/poker_controller.py:308-349 | only FLOP, TURN and RIVER deal, and the board each expects plus the cards it adds reach the size that phase expects |
| AppController.PokerController.constructor | app_controller/poker_controller.py:70-88 | version 0, an empty snapshot cache, no raise increment and no deck |
| AppController.PokerController.GetStateSnapshot | app_controller/poker_controller.py:92-122 | None exactly when the caller knows the current version; otherwise a snapshot of the current table at the current version for the viewer, never a stale cached one; the table and version are untouched |
| AppController.PokerController.ExecutePlayerAction | app_controller/poker_controller.py:30-55 | under `@atomic`: any failure restores the state and the version; success raises the version by exactly one, conserves chips, bets and pot, and leaves the table `ActionTaken` describes: the action as `Applied` says, the turn passed, then the street check; a refused action is the player's error, and `TurnFailed` arises exactly when the action applied and `TurnBlocked` holds (someone ACTIVE, the current seat not at the table) |
| AppController.PokerController.IsHandOver | app_controller/poker_controller.py:608-610 | the hand is over exactly at SHOWDOWN |
| AppController.PokerController.PerformAction | app_controller/poker_controller.py:125-175 | invalid input, an unknown seat and a rejected action are errors in that order; a refused action is reported as the player's error; `TurnFailed` arises exactly when the action applied and `TurnBlocked` holds; success conserves chips, bets and pot and leaves the table `ActionTaken` describes |
| AppController.PokerController.ExecuteValidatedAction | app_controller/poker_controller.py:205-271 | the actor's part as `Applied` says, then the turn passes clockwise to the first player who can act (true) or stays unchanged (false) only when nobody is ACTIVE or nobody else can act, as `TurnPassed` states; `TurnFailed` exactly when the action applied and `TurnBlocked` holds |
| AppController.PokerController.ApplyAction | app_controller/poker_controller.py:223-259 | the table becomes `Applied`'s, or is unchanged with its error |
| AppController.PokerController.Fold_ | app_controller/poker_controller.py:226-227 | the table becomes `FoldedAt`'s, or is unchanged with its error |
| AppController.PokerController.AllIn_ | app_controller/poker_controller.py:249-259 | the table becomes `AllInAt`'s, or is unchanged with its error |
| AppController.PokerController.Pay | app_controller/poker_controller.py:234-245 | the table becomes `PaidTo`'s, or is unchanged with its error |
| AppController.PokerController.CheckAndAdvance | app_controller/poker_controller.py:273-277 | nothing changes until the betting round is complete; then the result is `_advance_to_next_phase`'s (`Checked`, `Advanced`); chips, bets and pot are conserved |
| AppController.PokerController.AdvanceToNextPhase | app_controller/poker_controller.py:279-306 | the new state is `Advanced` of the old: bets into the pot with chips conserved, the phase one step on, the street's board dealt from the deck or DeckEmpty with the bets already collected, and short of SHOWDOWN a fresh street whose first player follows the post-flop rule, or RoundFailed |
| AppController.PokerController.OpenStreet | app_controller/poker_controller.py:305-306 | after the flop, `start_new_betting_round()` clears the street's bookkeeping and bets and hands the turn by the post-flop rule, as `StreetOpened` states; its failure is RoundFailed |
| AppController.PokerController.DealStreet | app_controller/poker_controller.py:308-349 | with a deck and the board at the street's expected size, one card is burnt and the street's cards come off the front; a deck too short is an error; otherwise nothing happens; the result is `BoardDealt` of the old state |
| AppController.PokerController.AdvanceDealer | app_controller/poker_controller.py:436-490 | the old dealer's flag is cleared; the button moves to `NextDealer` and that player is flagged, or an error when nobody holds chips; the version goes up by one either way |
| AppController.PokerController.ResetForNewHand | app_controller/poker_controller.py:395-419 | PRE_FLOP with an empty board, no pot, bet, raiser or increment; players with chips reset, broke players kept; a missing deck replaced by the fresh one |
| AppController.DealerFlag | app_controller/poker_controller.py:448-450 | only the player at the seat, if any, changes, and only their dealer flag |
| AppController.DealerFlagKeepsChipSeats | app_controller/poker_controller.py:448-472 | clearing or setting a dealer flag does not change who the button goes to |
| AppController.ResetHoldersFacts | app_controller/poker_controller.py:410-412 | the reset keeps seats and chips, and leaves every player with chips ACTIVE with no bet and no cards |
| Betting.DebitTotal | v3/core/chips/chip_ledger.py:83-110 | a covered deduction takes exactly that many chips out of the ledger, all from the one player |
| Betting.DeductVerdict | v3/core/chips/chip_ledger.py:83-110 | a non-positive amount raises; success only for an amount the balance covers |
| Betting.ChipLedger.constructor | v3/core/chips/chip_ledger.py:39-54 | the ledger holds the given balances |
| Betting.ChipLedger.DeductChips | v3/core/chips/chip_ledger.py:83-110 | the answer is `DeductVerdict`'s; on success the balances are debited and the total drops by the amount; otherwise nothing changes |
| Betting.RemoveFirst | v3/core/betting/betting_engine.py:195-196 | removing a present player drops one occurrence of it and keeps the rest; an absent one changes nothing |
| Betting.RemoveFirstDistinct | v3/core/betting/betting_engine.py:195-196 | from a duplicate-free list the player is gone and the list stays duplicate-free |
| Betting.BlindHeld | v3/core/betting/betting_engine.py:90-124 | posting a blind keeps ledger plus bets, except for a bet the player already had, which the blind overwrites |
| Betting.OpenRoundConserves | v3/core/betting/betting_engine.py:79-126 | the blinds move chips from the ledger into the bets and nowhere else, unless one player posts both blinds and the big blind overwrites the small |
| Betting.OpenRoundOutcome | v3/core/betting/betting_engine.py:79-126 | the round starts iff both blinds are covered (a big blind below 2 raises on the zero small blind); a started round has the big blind as its line, both posters recorded and the active list copied |
| Betting.NewBetAction | v3/tests/unit/test_chips_and_betting.py:329-347 | an action is refused exactly when a FOLD carries an amount or a RAISE a non-positive one |
| Betting.PlayerStepConserves | v3/core/betting/betting_engine.py:128-276 | every action keeps ledger plus bets; a refused one changes nothing; a successful one is recorded for its player and moves its chips from that player's balance to that player's bet only |
| Betting.CallAccounted | v3/core/betting/betting_engine.py:212-226 | CALL keeps the accounting of `PlayerStepConserves` |
| Betting.RaiseAccounted | v3/core/betting/betting_engine.py:228-243 | RAISE keeps the accounting of `PlayerStepConserves` |
| Betting.AllInAccounted | v3/core/betting/betting_engine.py:245-276 | ALL_IN keeps the accounting of `PlayerStepConserves` |
| Betting.PaidIntoPot | v3/core/betting/betting_engine.py:212-276 | a paying step debits the ledger and credits the bet by the same amount |
| Betting.ActsOnce | v3/core/betting/betting_engine.py:140-144 | after a successful action every further action by the same player in the round is refused |
| Betting.SucceedsOnlyWhenAllowed | v3/core/betting/betting_engine.py:140-176 | success needs an active player who has not acted, a well-formed action and the validator's approval |
| Betting.FoldLeavesRound | v3/core/betting/betting_engine.py:192-202 | FOLD moves no chips, succeeds exactly for an approved active player who has not acted, and takes them out of the active list |
| Betting.CallMatchesLine | v3/core/betting/betting_engine.py:212-226 | a successful CALL brings the bet up to the line, moving the positive difference, and changes neither the line nor the minimum raise |
| Betting.RaiseKeepsMinRaise | v3/core/betting/betting_engine.py:228-243 | a successful RAISE sets the line and the player's bet to the amount, moves the difference, and keeps the minimum raise |
| Betting.AllInMovesLine | v3/core/betting/betting_engine.py:245-276 | ALL_IN empties the available chips into the bet; the line rises to the total only above it, and then the minimum raise becomes the increase |
| Betting.ThreePlayerRound | v3/core/betting/betting_engine.py:79-226 | three players of 1000 with a big blind of 20: the blinds leave 990 and 980 and a line of 20, the third player's call moves 20, and the small blind may not act again |
| Betting.BettingEngine.constructor | v3/core/betting/betting_engine.py:54-65 | an empty round with the big blind as minimum raise and no history |
| Betting.BettingEngine.GetTotalPot | v3/core/betting/betting_engine.py:305-307 | the loop returns the sum of the round's bets |
| Betting.BettingEngine.StartNewRound | v3/core/betting/betting_engine.py:67-126 | fewer than two players changes nothing; otherwise round, ledger and history become `OpenRound`'s, keeping the chips held when the blind posters differ |
| Betting.BettingEngine.ExecutePlayerAction | v3/core/betting/betting_engine.py:128-154 | round, ledger and history become `PlayerStep`'s, and ledger plus bets are kept |
| Betting.BettingEngine.ExecuteBetAction | v3/core/betting/betting_engine.py:156-190 | round, ledger and history become `BetStep`'s |
| Betting.BettingEngine.ExecuteFold | v3/core/betting/betting_engine.py:192-202 | round and history become `FoldStep`'s |
| Betting.BettingEngine.ExecuteCheck | v3/core/betting/betting_engine.py:204-210 | round and history become `CheckStep`'s |
| Betting.BettingEngine.ExecuteCall | v3/core/betting/betting_engine.py:212-226 | round, ledger and history become `CallStep`'s |
| Betting.BettingEngine.ExecuteRaise | v3/core/betting/betting_engine.py:228-243 | round, ledger and history become `RaiseStep`'s |
| Betting.BettingEngine.ExecuteAllIn | v3/core/betting/betting_engine.py:245-276 | round, ledger and history become `AllInStep`'s |
| Betting.BettingEngine.ResetForNextRound | v3/core/betting/betting_engine.py:313-321 | a fresh round over the same active players with no bets and no actions; the history stays |
| PhaseHandlers.TransitionTable | v3/core/state_machine/phase_handlers.py:35-48 | within a hand the table only moves forward; every phase but INIT and FINISHED may end the hand; SHOWDOWN is reachable from PRE_FLOP to RIVER; FINISHED leads only to PRE_FLOP or INIT, and only FINISHED leads to INIT; no phase moves to itself |
| PhaseHandlers.InitEnter | v3/core/state_machine/phase_handlers.py:57-64 | the board, the pot, the line and the player to act are cleared; the players are untouched |
| PhaseHandlers.Prepared | v3/core/state_machine/phase_handlers.py:115-120 | both bet fields exist afterwards, and nothing else about the player changes |
| PhaseHandlers.BlindsConserve | v3/core/state_machine/phase_handlers.py:107-141 | the first two players post the small and the big blind when they can afford them, and the chips they post are exactly what the pot gains; every other player only gets the bet fields |
| PhaseHandlers.SetupBlinds | v3/core/state_machine/phase_handlers.py:107-141 | fewer than two players changes nothing; otherwise the players become `Blinds`', the pot grows by `BlindPot`, and the line is the big blind whether it was posted or not |
| PhaseHandlers.HoleAt | v3/core/state_machine/phase_handlers.py:150-164 | each deal hands two different cards from the four fixed test cards |
| PhaseHandlers.DealtHolesFacts | v3/core/state_machine/phase_handlers.py:143-165 | every active player gets exactly two cards, A♥ K♠ or Q♦ J♣ by the parity of their rank among active players, so hands repeat; nothing else changes |
| PhaseHandlers.CycleOfTwo | v3/core/state_machine/phase_handlers.py:161-165 | the j-th active player's cards are A♥ K♠ for even j and Q♦ J♣ for odd j |
| PhaseHandlers.DealHoleCards | v3/core/state_machine/phase_handlers.py:143-165 | the loop leaves the players as `DealtHoles` specifies |
| PhaseHandlers.PreFlopEnter | v3/core/state_machine/phase_handlers.py:81-86 | the blinds, then the hole cards, with the pot and the line as `SetupBlinds` says |
| PhaseHandlers.StreetsDealFiveCards | v3/core/state_machine/phase_handlers.py:246-327 | from an empty board the flop, turn and river give 3, 4 and then 5 cards, the flop's three first |
| PhaseHandlers.StreetsIdempotent | v3/core/state_machine/phase_handlers.py:246-327 | entering a street twice deals nothing twice; the turn adds a card only to a 3-card board and the river only to a 4-card board |
| PhaseHandlers.BetsCleared | v3/core/state_machine/phase_handlers.py:260-267 | every player's current bet becomes 0, nothing else changes, and no chips move |
| PhaseHandlers.ResetBettingRound | v3/core/state_machine/phase_handlers.py:260-267 | the line is 0 and the players become `BetsCleared`' |
| PhaseHandlers.FlopEnter | v3/core/state_machine/phase_handlers.py:226-232 | the flop onto an empty board, then a fresh betting round |
| PhaseHandlers.TurnEnter | v3/core/state_machine/phase_handlers.py:276-282 | the turn label onto a 3-card board, and the line reset while the players' bets stay |
| PhaseHandlers.RiverEnter | v3/core/state_machine/phase_handlers.py:306-312 | the river label onto a 4-card board, and the line reset |
| PhaseHandlers.DetermineWinners | v3/core/state_machine/phase_handlers.py:350-360 | the first player not folded is credited the pot as winnings and the pot empties; with everybody folded nothing changes; no chips move |
| PhaseHandlers.CleanedUp | v3/core/state_machine/phase_handlers.py:392-397 | every player loses hole cards, status and winnings, and keeps their chips |
| PhaseHandlers.CleanupHand | v3/core/state_machine/phase_handlers.py:369-397 | the players become `CleanedUp`' |
| PhaseHandlers.ShowdownPotVanishes | v3/core/state_machine/phase_handlers.py:350-397 | after the showdown and the cleanup nobody holds any winnings and the players hold the chips they held before: the pot has left the table |
| PhaseHandlers.OnEnter | v3/core/state_machine/phase_handlers.py:27-397 | each phase's entry states the whole new context: INIT clears the table; PRE_FLOP posts the blinds with two or more players and deals the hole cards; FLOP deals the flop and clears every bet; TURN and RIVER deal their card and reset the line; SHOWDOWN credits the pot to the first player not folded; FINISHED cleans every player up; from FLOP on no chips move and only SHOWDOWN touches the pot |
| PhaseHandlers.ResponseFacts | v3/core/state_machine/phase_handlers.py:66-389 | INIT and SHOWDOWN refuse every action; FINISHED accepts only a new hand; the street phases accept a fold, a call (reported at the whole line), a raise strictly above the line, or a check on a zero line, and refuse everything else |
| PhaseHandlers.HandlePlayerAction | v3/core/state_machine/phase_handlers.py:88-217 | the event is `Response`'s; a fold marks every entry with that id folded, an accepted raise sets the line, nothing else changes, and no chips move |
| BettingRules.LimitViolations | v3/core/invariant/betting_rules_checker.py:70-105 | both limit tests reduce to `chips < 0`; each such player yields two critical violations and nobody else yields any |
| BettingRules.NoNegativeChips | v3/core/invariant/betting_rules_checker.py:72-103 | no player is counted as over the limit exactly when every player's chips are non-negative |
| BettingRules.BettingLimitsOnlyNegativeChips | v3/core/invariant/betting_rules_checker.py:61-105 | the betting-limit check passes iff no player has negative chips |
| BettingRules.AllInWarnings | v3/core/invariant/betting_rules_checker.py:118-132 | every record is a warning; there is none iff no all-in player still holds chips |
| BettingRules.AllInRules | v3/core/invariant/betting_rules_checker.py:107-134 | the all-in check always passes and records exactly the all-in warnings |
| BettingRules.BlindRules | v3/core/invariant/betting_rules_checker.py:136-197 | passes iff the big blind exceeds the small blind, both positions are seats at the table, and with more than two players they differ; every record is critical |
| BettingRules.MaxBet | v3/core/invariant/betting_rules_checker.py:211 | the result is some player's current bet and no player's current bet exceeds it |
| BettingRules.CurrentBetConsistency | v3/core/invariant/betting_rules_checker.py:199-226 | no verdict (Python's `max` raises) iff there are no players; otherwise passes iff the recorded current bet is the highest player bet |
| BettingRules.PhaseBettingRules | v3/core/invariant/betting_rules_checker.py:228-265 | never fails; warns iff there is a bet during INIT or an empty pot during PRE_FLOP |
| BettingRules.ActiveBets | v3/core/invariant/betting_rules_checker.py:281 | the bets of the active players, in seat order |
| BettingRules.ActiveBetHolder | v3/core/invariant/betting_rules_checker.py:281 | a bet is among the active bets iff some active player holds it |
| BettingRules.TopTwo | v3/core/invariant/betting_rules_checker.py:285-287 | the first two of the bets sorted high to low: the top bet is the maximum; if the two are equal the top bet occurs twice, otherwise it occurs once and the second bounds every other bet |
| BettingRules.TopTwoFacts | v3/core/invariant/betting_rules_checker.py:285-287 | any descending rearrangement of the bets has those properties in its first two places |
| BettingRules.Raiser | v3/core/invariant/betting_rules_checker.py:301-305 | the first active player holding the top bet; one is found whenever the top bet is an active bet |
| BettingRules.TopTwoUnique | v3/core/invariant/betting_rules_checker.py:285-290 | a unique top bet and the best of the other bets are exactly the pair the sort picks |
| BettingRules.MinimumRaiseFails | v3/core/invariant/betting_rules_checker.py:269-323 | the minimum-raise check fails iff one active player alone holds a top bet that exceeds every other active bet by less than the big blind, the bets are not the pre-flop blinds, and that player is not all-in |
| BettingRules.InactiveViolations | v3/core/invariant/betting_rules_checker.py:336-350 | every record is critical; there is none iff no inactive player has a positive current bet |
| BettingRules.PerformCheck | v3/core/invariant/betting_rules_checker.py:36-59 | an invalid snapshot fails with nothing recorded; for a valid one the check raises iff there are no players |
| BettingRules.PerformCheckPasses | v3/core/invariant/betting_rules_checker.py:45-59 | with players present the whole check passes iff the limit, blind, current-bet, minimum-raise and inactive-player checks all pass; the all-in and phase checks only warn |
| BettingRules.ConstructibleSnapshots | v3/core/invariant/betting_rules_checker.py:61-226 | on any snapshot its constructors accept, the limit check passes and the current-bet check does not raise |
| BettingRules.InactiveBettorFails | v3/core/invariant/betting_rules_checker.py:336-350 | an inactive player with a positive current bet makes the whole check fail |
| BettingRules.CalledBlindsPass | v3/core/invariant/betting_rules_checker.py:36-59 | two players who both called a 20 big blind pass every check with nothing recorded |
| BettingRules.CalledBlindsRaise | v3/core/invariant/betting_rules_checker.py:281-290 | equal bets of 20 are not a raise |
| BettingRules.CalledBlindsLists | v3/core/invariant/betting_rules_checker.py:61-134 | called blinds record no limit, all-in or inactive-player violation |
| BettingRules.CalledBlindsVerdicts | v3/core/invariant/betting_rules_checker.py:136-265 | called blinds pass the blind, phase and current-bet checks with nothing recorded |
| BettingRules.ShortRaiseFails | v3/core/invariant/betting_rules_checker.py:290-321 | a raise of 10 over a big blind of 20 fails the minimum-raise check |
| BettingRules.WrongLineFails | v3/core/invariant/betting_rules_checker.py:211-224 | a recorded current bet of 30 over two bets of 20 fails the current-bet check |
| BettingRules.AllInRaisePasses | v3/core/invariant/betting_rules_checker.py:290-321 | an all-in of 1000 over a bet of 20 is no short raise |
| BettingRules.HeadsUpBets | v3/core/invariant/betting_rules_checker.py:281 | with two active players the active bets are their two bets in seat order |
| BettingRules.TopTwoOfPair | v3/core/invariant/betting_rules_checker.py:285-287 | two distinct bets sort to the larger first |
| PhaseConsistency.ExpectedCommunityCards | v3/core/invariant/phase_consistency_checker.py:32-40 | at most five community cards in any phase, and none exactly in INIT and PRE_FLOP |
| PhaseConsistency.CheckPhaseTransition | v3/core/invariant/phase_consistency_checker.py:395-419 | a transition is accepted iff the target is listed for the source phase; a rejected one records one critical violation |
| PhaseConsistency.TransitionsMoveForward | v3/core/invariant/phase_consistency_checker.py:43-51 | every accepted transition moves strictly forward in the hand and never shrinks the expected board; nothing follows FINISHED; every phase after INIT may jump to FINISHED |
| PhaseConsistency.AcceptedRunIsShort | v3/core/invariant/phase_consistency_checker.py:43-51 | along any run of accepted transitions the phase advances at every step, so a run has at most seven phases |
| PhaseConsistency.CommunityCardsCount | v3/core/invariant/phase_consistency_checker.py:86-109 | passes iff the board holds exactly the number of cards the phase expects |
| PhaseConsistency.Duplicates | v3/core/invariant/phase_consistency_checker.py:126-134 | no duplicate is reported iff the cards are pairwise distinct and none of them was seen before |
| PhaseConsistency.CommunityCardsUniqueness | v3/core/invariant/phase_consistency_checker.py:113-150 | passes iff no card appears twice on the board |
| PhaseConsistency.HoleCardViolations | v3/core/invariant/phase_consistency_checker.py:163-195 | every record is critical; there is none iff every active player holds exactly two hole cards outside INIT and no player holds more than two |
| PhaseConsistency.PyAt | v3/core/invariant/phase_consistency_checker.py:253 | Python list indexing: an index in range gives that player, a negative one counts from the end, and one outside both is an IndexError |
| PhaseConsistency.ActionableCount | v3/core/invariant/phase_consistency_checker.py:267-270 | zero iff no player is both active and holding chips |
| PhaseConsistency.ActivePlayersConsistency | v3/core/invariant/phase_consistency_checker.py:199-302 | raises iff the acting position is below minus the player count; otherwise passes iff some player is active unless the phase is FINISHED, and an acting position is a seat whose player may act or is all-in, or nobody can act |
| PhaseConsistency.PotConsistency | v3/core/invariant/phase_consistency_checker.py:304-346 | passes iff the total pot is at least the main pot and equals the main pot plus the side-pot amounts (a missing amount counts as zero) |
| PhaseConsistency.SidePotsTotalNonNegative | v3/core/invariant/phase_consistency_checker.py:328 | side pots with no negative amount sum to a non-negative total |
| PhaseConsistency.PotConsistencyIsSum | v3/core/invariant/phase_consistency_checker.py:316-344 | with non-negative side pots the pot check passes iff the total is the main pot plus the side pots; the first test is then implied |
| PhaseConsistency.InitBetWarnings | v3/core/invariant/phase_consistency_checker.py:372-384 | no warning iff no player has a current bet or a bet this hand |
| PhaseConsistency.BettingConsistency | v3/core/invariant/phase_consistency_checker.py:348-393 | never fails; records nothing outside INIT, and in INIT records nothing iff neither the table nor any player has a bet |
| PhaseConsistency.PerformCheck | v3/core/invariant/phase_consistency_checker.py:53-75 | an invalid snapshot fails with nothing recorded; a valid one raises exactly when the acting-seat test raises |
| PhaseConsistency.PerformCheckPasses | v3/core/invariant/phase_consistency_checker.py:53-75 | the whole check passes iff the board has the phase's size and no repeated card, the hole-card counts are right, the active players and acting seat are consistent and the pot adds up |
| PhaseConsistency.RepeatedBoardCardFails | v3/core/invariant/phase_consistency_checker.py:126-148 | the same card twice on the board fails the whole check whatever else holds |
| Health.SeverityCount | v2/core/health_checker.py:102-111 | bounded by the number of issues, and zero iff no issue has that severity |
| Health.SeverityCountsPartition | v2/core/health_checker.py:102-111 | the critical, warning and info counts add up to the number of issues |
| Health.ActiveCount | v2/core/health_checker.py:113 | zero iff no seat is ACTIVE |
| Health.ChipConservation | v2/core/health_checker.py:122-159 | with no expected total nothing is checked; otherwise one critical issue iff stacks plus current bets plus pot differ from the expected total |
| Health.PlayerCount | v2/core/health_checker.py:161-202 | all issues concern the player count; a critical one iff fewer than two players, or nobody ACTIVE outside SHOWDOWN; a warning iff more than ten players |
| Health.CurrentPlayer | v2/core/health_checker.py:204-242 | at most one issue: critical iff the current index is outside the player list, a warning iff it names a seat that is not ACTIVE |
| Health.SeatBetIssues | v2/core/health_checker.py:256-318 | a seat raises nothing iff its bet is not negative and a positive bet has non-negative chips behind it that are zero or more than half the bet; every issue is a critical bet-amount issue |
| Health.SeatsBetIssues | v2/core/health_checker.py:256-318 | no issue iff no seat raises one |
| Health.BetAmounts | v2/core/health_checker.py:244-329 | no issue iff the table bet is not negative and no seat raises one; every issue is a critical bet-amount issue |
| Health.CommunityCards | v2/core/health_checker.py:331-366 | at most one issue, a warning, iff the phase is a betting street or SHOWDOWN and the board has the wrong size |
| Health.RepeatedKeys | v2/core/health_checker.py:390-397 | nothing is repeated iff the cards are pairwise distinct and none was seen before |
| Health.DuplicateCardIssues | v2/core/health_checker.py:368-410 | one critical issue iff some card appears twice among the board and all hole cards |
| Health.PotAmount | v2/core/health_checker.py:412-431 | one critical issue iff the pot is negative |
| Health.CheckHealthOf | v2/core/health_checker.py:81-120 | the issues are the seven checks' issues in order; healthy iff none is critical; the summary's counts add up to the number of issues and it counts all players and the ACTIVE ones |
| Health.CriticalFreeAppend | v2/core/health_checker.py:93-103 | a concatenation holds no critical issue iff neither part does |
| Health.OnlyCritical | v2/core/health_checker.py:93-103 | a list of critical issues is free of them iff it is empty |
| Health.PlayerCountCritical | v2/core/health_checker.py:161-202 | the player-count check raises nothing critical iff there are two players or more and, outside SHOWDOWN, someone is ACTIVE |
| Health.HealthyIsCriticalFree | v2/core/health_checker.py:90-103 | healthy iff each of the seven checks is free of critical issues |
| Health.ConservationCritical | v2/core/health_checker.py:122-159 | the conservation check raises nothing critical iff no total is expected or the chips add up to it |
| Health.CurrentPlayerCritical | v2/core/health_checker.py:204-242 | the current-player check raises nothing critical iff the index, if any, is inside the player list |
| Health.SeparateChecksCritical | v2/core/health_checker.py:244-431 | the bet check is free of critical issues iff it found none; the board-size check never is critical; the duplicate check is free of them iff no visible card repeats; the pot check iff the pot is not negative |
| Health.HealthyIff | v2/core/health_checker.py:81-431 | healthy iff the chips add up (when a total is expected), there are two players or more and someone ACTIVE outside SHOWDOWN, the current index is in range, no bet is invalid, no visible card repeats and the pot is not negative |
| Health.GameStateHealthChecker.constructor | v2/core/health_checker.py:72-79 | the expected total is the one given, or none |
| Health.GameStateHealthChecker.CheckHealth | v2/core/health_checker.py:81-120 | the result is the health check against the checker's current expected total |
| Health.GameStateHealthChecker.SetExpectedTotalChips | v2/core/health_checker.py:433-439 | from now on the conservation check uses the given total |
| Health.EngineBetIssues | v2/core/health_checker.py:244-329 | on the engine's own snapshots, whose chips and bets are never negative, a bet issue arises only from the bet-to-stack heuristic or a negative table bet |
| Health.TwoSeatsFacts | v2/core/health_checker.py:137-138 | the stacks, bets, ACTIVE seats and visible cards of the two-seat example table |
| Health.HealthyExample | v2/core/health_checker.py:81-120 | two players at 1000 against an expected 2000 are healthy, with no issue |
| Health.ConservationExample | v2/core/health_checker.py:122-159 | 900 and 1000 behind and a pot of 50 against an expected 2000 raise one critical conservation issue and are unhealthy |
| Health.BetHeuristicExamples | v2/core/health_checker.py:304-318 | a bet of 200 with 100 behind trips the heuristic; a bet of 150 with 100 behind does not |
| Validation.Checked | v3/application/validation_service.py:144-149 | the result is valid iff no error was recorded, and keeps the errors, warnings and number of checks it was given |
| Validation.ActionTypeErrors | v3/application/validation_service.py:159-210 | each of the five rules is reported iff its condition holds: an unknown action, a check facing a bet, a call facing none, a raise or all-in of no chips, an all-in of other than the whole stack |
| Validation.ActionTypePasses | v3/application/validation_service.py:159-210 | the action-type rules report nothing iff none of the five conditions holds |
| Validation.CheckOrCall | v3/application/validation_service.py:174-208 | with a non-negative current bet exactly one of check and call passes; an all-in passes iff it stakes the whole, positive, stack |
| Validation.ChipsChangeErrors | v3/application/validation_service.py:212-270 | the chip-change error iff the stack did not move by the expected amount; the bet-change error iff, outside a fold, the bet did not; the negative-chips error iff the stack ends negative |
| Validation.ChipsChangeIsTransfer | v3/application/validation_service.py:228-268 | for a call, raise or all-in the chip checks pass iff exactly `amount` moved from the stack to the bet and the stack covered it |
| Validation.FoldIgnoresBet | v3/application/validation_service.py:222-268 | a fold passes the chip checks with any change of bet, as long as the stack is untouched and not negative |
| Validation.BettingRuleErrors | v3/application/validation_service.py:272-311 | raises iff a raise is checked against a zero big blind; otherwise a raise is flagged iff it is no multiple of the big blind, or the new bet falls short of the current bet times the multiplier, and a call iff it is not what is owed |
| Validation.AcceptedCallMatches | v3/application/validation_service.py:228-311 | an accepted call leaves the bet at the current bet (or where it was, if above it), with the stack paying exactly for it and not going negative |
| Validation.DefaultRaiseRule | v3/application/validation_service.py:277-297 | under the default rules a raise passes iff it is a multiple of 10 and the new bet reaches the current bet |
| Validation.PhaseRuleErrors | v3/application/validation_service.py:313-327 | no error iff the phase is a configured betting phase |
| Validation.DefaultBettingPhases | v3/application/validation_service.py:313-327 | under the default rules the betting phases are exactly PRE_FLOP, FLOP, TURN and RIVER |
| Validation.ValidatePlayerActionRules | v3/application/validation_service.py:83-157 | fails with `VALIDATE_PLAYER_ACTION_FAILED` iff the betting rules raise; otherwise performs four checks, records no warnings, and its errors are the four checks' errors in order, so it is valid iff none was found |
| Validation.HonestCallAccepted | v3/application/validation_service.py:83-157 | under the default rules, a call of exactly what is owed, in a betting phase with a bet open, by a player whose stack covers it, is valid with no error |
| Validation.AcceptedActionConserves | v3/application/validation_service.py:83-157 | every accepted action other than a fold keeps the player's chips plus bet and leaves the stack non-negative |
| Validation.ValidateChipConservation | v3/application/validation_service.py:329-370 | valid iff players' chips plus pot equal the starting total; one conservation error otherwise |
| Validation.BetKeepsConservation | v3/application/validation_service.py:344-362 | moving chips from the players into the pot keeps a conserved state conserved |
| Validation.ActiveIds | v3/application/validation_service.py:409-410 | exactly the ids whose entries are marked active |
| Validation.ValidateGameStateConsistency | v3/application/validation_service.py:372-446 | valid iff the player count is within the configured bounds and the pot is not negative; each error is recorded iff its condition holds; a warning iff several players are active and none is designated to act; three checks performed |
| Validation.DesignationOnlyWarns | v3/application/validation_service.py:407-420 | who is designated to act never changes validity |
| Validation.ValidatePhaseTransition | v3/application/validation_service.py:448-501 | valid iff the source is known and lists the target; an unknown source is one error and an unlisted target another |
| Validation.PhaseTransitionsByPhase | v3/application/validation_service.py:467-492 | the table accepts exactly one step forward, a jump from a betting street to FINISHED, and FINISHED back to INIT; every phase name is a known source |
| Validation.UnknownSourceRejected | v3/application/validation_service.py:477-484 | a name that is no phase's name is rejected as a source, with exactly that error, whatever the target |
| Validation.TablesDisagree | v3/application/validation_service.py:467-475 | this table and the phase-consistency checker's disagree exactly on PRE_FLOP, FLOP or TURN to SHOWDOWN and on FINISHED to INIT |
| Commands.NewContext | v3/application/command_service.py:97-106 | a fresh game is in INIT with an empty pot, no bet and blinds of 50/100, and holds exactly the given ids, each active with 1000 chips and no bet |
| Commands.NewPlayerCount | v3/application/command_service.py:100 | with distinct ids a new game has one player per id |
| Commands.DistinctSetSize | v3/application/command_service.py:100 | a list of distinct ids has as many elements as its set |
| Commands.NewGameConsistent | v3/application/command_service.py:86-106 | a new game of two to ten distinct players passes the validation service's state-consistency check under the default rules |
| Commands.RepeatedIdsCollapse | v3/application/command_service.py:89-100 | a list with a repeated id passes the count check but yields fewer players than ids |
| Commands.Translate | v3/application/command_service.py:215-223 | an exception of the state machine is never a success, and becomes the operation's own failure code exactly when it is neither a validation nor a business-rule error |
| Commands.ActionPreCheck | v3/application/command_service.py:239-266 | GAME_NOT_FOUND iff the game is unknown; no rejection iff the game exists, the player is in it, the type is known and a raise or all-in stakes something positive |
| Commands.PreCheckMatchesValidation | v3/application/command_service.py:254-266 | for a known player in a known game the command rejects the action iff the validation service reports an unknown type or a non-positive raise |
| Commands.Without | v3/application/command_service.py:395 | the ids other than the one removed, with no id repeated if none was before |
| Commands.WithoutLast | v3/application/command_service.py:117-133 | removing the id just added gives back the list of games as it was |
| Commands.GameCommandService.constructor | v3/application/command_service.py:45-59 | no sessions and the given invariant-check setting |
| Commands.GameCommandService.GetSession | v3/application/command_service.py:407-409 | the session iff the game is registered |
| Commands.GameCommandService.GetActiveGames | v3/application/command_service.py:411-413 | every registered game once, in creation order |
| Commands.GameCommandService.CreateNewGame | v3/application/command_service.py:61-153 | a taken id, a player count outside two to ten, or a rejected invariant check leaves the registry as it was with the matching failure; otherwise the fresh game is registered and appended |
| Commands.GameCommandService.StartNewHand | v3/application/command_service.py:155-223 | an unknown game or a phase other than INIT and FINISHED is rejected with nothing changed; an exception of the state machine changes nothing; otherwise the new context is stored, and an invariant failure is reported after it is stored |
| Commands.GameCommandService.ExecutePlayerAction | v3/application/command_service.py:225-311 | a failed pre-check is returned with nothing changed; otherwise the state machine's outcome is stored or its exception reported, and an invariant failure follows the stored context |
| Commands.GameCommandService.AdvancePhase | v3/application/command_service.py:313-376 | an unknown game is rejected; any exception is ADVANCE_PHASE_FAILED with nothing changed; otherwise the new context is stored |
| Commands.GameCommandService.RemoveGame | v3/application/command_service.py:378-405 | an unknown id is GAME_NOT_FOUND with nothing changed; otherwise exactly that game leaves the registry and the list |
| Queries.SessionOf | v3/application/query_service.py:89-101 | fails iff there is no command service or the game is unknown, with COMMAND_SERVICE_NOT_INITIALIZED or GAME_NOT_FOUND respectively; otherwise the game's session |
| Queries.GetGameState | v3/application/query_service.py:78-121 | fails exactly as the session lookup does; otherwise the snapshot carries the context's phase name, players, board, pot and current bet |
| Queries.GetPlayerInfo | v3/application/query_service.py:123-171 | fails iff the session lookup fails or the player is not in the game (PLAYER_NOT_IN_GAME); otherwise the player's chips, active flag and bet |
| Queries.OpenActions | v3/application/query_service.py:342-370 | fold comes first; check iff there is no bet; call iff there is one and the stack covers it; raise iff the stack is positive with no bet, or covers the call plus more than the minimum raise; all-in iff the stack is positive; no action twice, and all are known actions |
| Queries.Responses | v3/application/query_service.py:352-366 | the answers to the current bet: check, call and raise under the same conditions as the full list, never fold or all-in, none twice |
| Queries.DetermineAvailableActions | v3/application/query_service.py:321-377 | nothing for an inactive player or outside PRE_FLOP to RIVER, otherwise the open actions for the player's stack and what they owe; the bet range runs from the table bet to the player's stack |
| Queries.NeverCheckAndCall | v3/application/query_service.py:352-359 | the list never offers both check and call |
| Queries.OfferedActionsPassTypeRules | v3/application/query_service.py:321-377 | each of fold, check, call and an all-in of the whole stack the list offers passes the validation service's action-type rules |
| Queries.GetAvailableActions | v3/application/query_service.py:173-217 | fails exactly as the player lookup does; otherwise the list the player is offered in that game |
| Queries.GetGameList | v3/application/query_service.py:219-240 | fails iff there is no command service; otherwise the command service's games |
| Queries.NextPhase | v3/application/query_service.py:495-522 | the name of the following phase, and none only after FINISHED |
| Queries.NextPhaseIsAccepted | v3/application/query_service.py:505-518 | the next phase is one step forward and the validation service accepts the transition to it |
| Queries.CanAdvancePhase | v3/application/query_service.py:476-493 | true iff at least two players are marked active |
| Queries.GetPhaseInfo | v3/application/query_service.py:281-319 | fails exactly as the session lookup does; otherwise the phase name, no next phase only in FINISHED, and advancing allowed iff two or more players are active |
| Queries.ChipHolders | v3/application/query_service.py:554-557 | exactly the players with chips |
| Queries.IsGameOver | v3/application/query_service.py:524-575 | fails exactly as the session lookup does; otherwise over iff fewer than two players hold chips |
| Queries.SingletonHoldsOne | v3/application/query_service.py:617-618 | two members of a one-element set are the same |
| Queries.GetGameWinner | v3/application/query_service.py:577-641 | fails exactly as the session lookup does; a winner is named iff exactly one player holds chips, and it is that player |
| Queries.WinnerIffLastStanding | v3/application/query_service.py:587-625 | `w` is named winner iff the game is over and `w` alone holds chips |
| Queries.PrefixLength | v3/application/query_service.py:271 | Python's `[:limit]` length: the limit capped at the length, and a negative limit drops that many from the end |
| Queries.GetGameHistory | v3/application/query_service.py:242-279 | as many of the game's events as the limit allows, each one of the game's, newest first |
| Queries.HistoryKeepsNewest | v3/application/query_service.py:258-271 | the events returned and the ones cut off are together exactly the game's events, and nothing cut off is newer than anything returned |
| SnapshotStore.LexIrreflexive | v3/core/snapshot/snapshot_manager.py:281 | no string sorts before itself |
| SnapshotStore.LexTransitive | v3/core/snapshot/snapshot_manager.py:281 | the string order used by `sorted` is transitive |
| SnapshotStore.LexTotal | v3/core/snapshot/snapshot_manager.py:281 | of two different strings one sorts before the other |
| SnapshotStore.SortedFront | v3/core/snapshot/snapshot_manager.py:281 | a string below every entry of a sorted listing can be put in front of it |
| SnapshotStore.InsertSorted | v3/core/snapshot/snapshot_manager.py:281 | adding a string to a sorted listing keeps it sorted and adds exactly that string |
| SnapshotStore.SortedSet | v3/core/snapshot/snapshot_manager.py:281 | `sorted(set(s))` is strictly increasing and holds exactly the elements of `s` |
| SnapshotStore.SortedDistinct | v3/core/snapshot/snapshot_manager.py:281 | a strictly increasing listing repeats nothing |
| SnapshotStore.SortedUnique | v3/core/snapshot/snapshot_manager.py:281 | two strictly increasing listings of the same strings are equal |
| SnapshotStore.Balance | v3/core/snapshot/snapshot_manager.py:250 | the ledger's balance for a known player, 0 for an unknown one |
| SnapshotStore.PlayerSnapshotOf | v3/core/snapshot/snapshot_manager.py:235-264 | a player's snapshot takes its chips from the ledger, and is active iff the player is active and not folded or out |
| SnapshotStore.PlayerSnapshots | v3/core/snapshot/snapshot_manager.py:227-266 | one snapshot per player, in dictionary order |
| SnapshotStore.BetIds | v3/core/snapshot/snapshot_manager.py:272 | exactly the ids that have a bet this hand |
| SnapshotStore.StillInHand | v3/core/snapshot/snapshot_manager.py:273-275 | exactly the ids whose status is neither folded nor out |
| SnapshotStore.PotSnapshotOf | v3/core/snapshot/snapshot_manager.py:268-282 | total and main pot are the sum of the hand's bets, with no side pot; the eligible players, sorted, are those with a bet plus those not folded or out |
| SnapshotStore.EligibleListingUnique | v3/core/snapshot/snapshot_manager.py:281 | the eligible players' listing is the only sorted listing of that set |
| SnapshotStore.BlindPositions | v3/core/snapshot/snapshot_manager.py:86-89 | with players present both blind positions are seats; the small blind is seat 1 when there are two or more players, and the big blind the seat after it when there are three or more; they coincide iff there are at most two |
| SnapshotStore.FindPlayer | v3/core/snapshot/snapshot_manager.py:291 | none iff no entry has that id; otherwise some entry with that id |
| SnapshotStore.FirstActionablePosition | v3/core/snapshot/snapshot_manager.py:297-301 | none iff nobody can act; otherwise the position of a player who can |
| SnapshotStore.ActivePlayerPosition | v3/core/snapshot/snapshot_manager.py:284-301 | none iff nobody can act; otherwise the position of someone who can, and that of the designated player whenever that player can act |
| SnapshotStore.ActivePlayerId | v3/core/snapshot/snapshot_manager.py:354-363 | none when no position is recorded or no player sits there; otherwise a player seated at the recorded position |
| SnapshotStore.SeatedAt | v3/core/snapshot/snapshot_manager.py:359-361 | none iff no player sits at the position; otherwise a player who does |
| SnapshotStore.DesignatedPlayerSurvives | v3/core/snapshot/snapshot_manager.py:284-363 | with distinct positions, a designated player who can act is still the designated player after a snapshot is taken and read back |
| SnapshotStore.SeatedAtUnique | v3/core/snapshot/snapshot_manager.py:359-361 | with distinct positions the player found at an entry's position is that entry's |
| SnapshotStore.RestoredPlayer | v3/core/snapshot/snapshot_manager.py:333-350 | a restored player is active iff in the hand or all-in, has status all_in iff all-in and active otherwise, and keeps chips, all-in flag and position |
| SnapshotStore.RestoredSnapshotOf | v3/core/snapshot/snapshot_manager.py:227-350 | snapshotting then restoring a player keeps everything but the chips (now the ledger's), the active flag (in the hand or all-in) and the status (all_in or active) |
| SnapshotStore.SnapshotOfRestored | v3/core/snapshot/snapshot_manager.py:227-350 | restoring then snapshotting a player gives the player back, except that an all-in player now counts as active |
| SnapshotStore.LastIndex | v3/core/snapshot/snapshot_manager.py:339 | the last entry with the id, or -1; no later entry has it |
| SnapshotStore.LastIndexExtend | v3/core/snapshot/snapshot_manager.py:333-339 | growing the prefix by one entry moves the last index of that entry's id only |
| SnapshotStore.RestorePlayers | v3/core/snapshot/snapshot_manager.py:325-352 | the dictionary holds exactly the ids present, each restored from its last entry |
| SnapshotStore.Balances | v3/core/snapshot/snapshot_manager.py:135 | each id present with the chips of its last entry |
| SnapshotStore.HandBets | v3/core/snapshot/snapshot_manager.py:137 | only positive bets this hand are recorded |
| SnapshotStore.HandBetsFacts | v3/core/snapshot/snapshot_manager.py:137 | an id is recorded iff some entry for it has a positive bet this hand, with the last entry's bet when that one is positive |
| SnapshotStore.ConstructibleBalances | v3/core/snapshot/snapshot_manager.py:135-136 | a snapshot the constructors accept has no negative balance to restore |
| SnapshotStore.RestoreFromSnapshot | v3/core/snapshot/snapshot_manager.py:117-159 | fails iff some balance is negative, never on an accepted snapshot; each id present is restored from its last entry, the ledger is `Balances` of the entries, so players and ledger have the same ids and agree on chips; bets, designated player, id, phase, blinds and board come from the snapshot |
| SnapshotStore.NewestFirst | v3/core/snapshot/snapshot_manager.py:199-204 | no more snapshots than ids, each a stored one |
| SnapshotStore.NewestFirstAllStored | v3/core/snapshot/snapshot_manager.py:199-204 | when every id is stored, one snapshot per id, newest first |
| SnapshotStore.Window | v3/core/snapshot/snapshot_manager.py:196 | the last `limit` ids for a positive limit, all of them otherwise |
| SnapshotStore.NewestFirstStep | v3/core/snapshot/snapshot_manager.py:199-202 | the walk from the newest id down is the rest of the walk followed by the first id's snapshot, if stored |
| SnapshotStore.RecentHistoryBound | v3/core/snapshot/snapshot_manager.py:186-204 | at most `limit` snapshots for a positive limit, and never more than were recorded |
| SnapshotStore.RecentHistoryAllStored | v3/core/snapshot/snapshot_manager.py:186-204 | when every recorded id is stored, exactly the last `limit` (or all) snapshots, newest first |
| SnapshotStore.SnapshotManager.constructor | v3/core/snapshot/snapshot_manager.py:41-45 | no snapshots and no history |
| SnapshotStore.SnapshotManager.GetSnapshot | v3/core/snapshot/snapshot_manager.py:161-171 | none iff the id is not stored; otherwise the snapshot with that id |
| SnapshotStore.SnapshotManager.GetLatestSnapshot | v3/core/snapshot/snapshot_manager.py:173-184 | none when nothing was recorded; otherwise the snapshot of the last recorded id |
| SnapshotStore.SnapshotManager.StoreSnapshot | v3/core/snapshot/snapshot_manager.py:365-373 | at 100 recorded ids the oldest is dropped with its snapshot; the new snapshot is stored, recorded last and becomes the latest |
| SnapshotStore.SnapshotManager.CreateSnapshot | v3/core/snapshot/snapshot_manager.py:47-115 | fails with nothing changed iff the snapshot built from the context is one its constructors reject; otherwise that snapshot is stored and becomes the latest |
| SnapshotStore.SnapshotManager.GetSnapshotHistory | v3/core/snapshot/snapshot_manager.py:186-204 | the stored snapshots of the last `limit` ids, newest first; at most `limit` and at most as many as recorded, exactly that many when all are stored |
| SnapshotStore.SnapshotManager.ClearOldSnapshots | v3/core/snapshot/snapshot_manager.py:206-225 | nothing changes when at most `keep_count` ids are recorded; otherwise the oldest ids go with their snapshots, the rest are kept unchanged, `keep_count` remain, and every recorded id stays stored |
| Bus.Upper | ai_players/event_bus.py:93 | `str.upper` on ASCII: same length, lower-case letters raised, everything else kept |
| Bus.InsertPos | ai_players/event_bus.py:84 | the place a stable descending sort puts a new subscription: after every one of at least its priority, before the first lower one |
| Bus.InsertDesc | ai_players/event_bus.py:82-84 | appending then sorting by descending priority keeps the list sorted, adds exactly the new subscription and grows it by one |
| Bus.InsertKeepsOrder | ai_players/event_bus.py:82-84 | putting a subscription after all of at least its priority and before the lower ones keeps the order and adds just it |
| Bus.InsertDescPlace | ai_players/event_bus.py:82-84 | the new subscription goes after every one of equal or higher priority and before every lower one, so equal priorities keep subscription order |
| Bus.InsertThenRemove | ai_players/event_bus.py:58-137 | subscribing with a fresh id and unsubscribing it gives the list back as it was |
| Bus.RemoveAt | ai_players/event_bus.py:123 | `del s[k]` removes exactly that subscription and keeps the list sorted |
| Bus.IndexOf | ai_players/event_bus.py:121-122 | the first position holding the id, or -1 iff none does |
| Bus.EntryOf | ai_players/event_bus.py:120 | the dictionary entry for the type, or -1 iff there is none |
| Bus.Locate | ai_players/event_bus.py:118-137 | the id is found in the first per-type list that holds it, else in the global list, and nowhere iff no list holds it |
| Bus.Truncated | ai_players/event_bus.py:148-151 | the history is kept while at most 1000 events long, and otherwise cut to 500 events (`PublishedSuffix` shows they are the newest) |
| Bus.OfTypeOnly | ai_players/event_bus.py:210-211 | only events of the given type, or all of them when no type is given |
| Bus.Newest | ai_players/event_bus.py:214-215 | no limit (or zero) keeps everything; a positive limit keeps that many of the newest; a negative one drops that many of the oldest; always a suffix |
| Bus.ListOf | ai_players/event_bus.py:163-164 | the list of the type's entry, empty when the type has none |
| Bus.Added | ai_players/event_bus.py:98-100 | the dictionary keeps its number of entries (the type's list gains the subscription in place), or gains one new entry for the type holding just the subscription |
| Bus.AddedFacts | ai_players/event_bus.py:97-100 | a subscription to a type inserts it into that type's list in priority order, keeps one sorted list per type, and leaves the other types' lists alone |
| Bus.AddedKeepsLists | ai_players/event_bus.py:97-100 | every per-type list stays sorted and every type has one entry at most |
| Bus.AddedOwnList | ai_players/event_bus.py:98-100 | the type's list becomes the old list with the subscription inserted in priority order |
| Bus.AddedOtherList | ai_players/event_bus.py:98-100 | other types' lists are unchanged |
| Bus.RemovedFacts | ai_players/event_bus.py:120-123 | removing a subscription from a per-type list keeps one sorted list per type |
| Bus.EventBus.constructor | ai_players/event_bus.py:37-56 | no subscriptions, an empty history and zero counters |
| Bus.EventBus.Subscribe | ai_players/event_bus.py:58-106 | '*' inserts into the global list by priority; a name that upper-cases to no event type is a ValueError with nothing changed; otherwise the type's list gains the subscription by priority and no other list changes; the new id is returned |
| Bus.EventBus.AddGlobal | ai_players/event_bus.py:80-84 | the global list gains the subscription in priority order; nothing else changes |
| Bus.EventBus.AddTyped | ai_players/event_bus.py:97-100 | the type's list gains the subscription in priority order; no other list and nothing else changes |
| Bus.EventBus.Unsubscribe | ai_players/event_bus.py:108-137 | true iff the id is held somewhere; the first holder found (per-type lists before the global one) loses exactly that subscription and nothing else changes |
| Bus.EventBus.Publish | ai_players/event_bus.py:139-181 | the event joins the bounded history and is counted; the subscriptions whose filter takes it are called, per-type ones first, each in priority order; those that return count as handled, those that raise as failed |
| Bus.EventBus.Record | ai_players/event_bus.py:146-153 | the event joins the bounded history and the published count grows by one; the subscriptions and the other counters stay |
| Bus.EventBus.GetEventHistory | ai_players/event_bus.py:194-217 | the newest `limit` events of the given type, or of all types |
| Bus.EventBus.ClearHistory | ai_players/event_bus.py:219-225 | the history empties; subscriptions and counters stay |
| Bus.Search | ai_players/event_bus.py:118-137 | the loops find exactly what `Locate` describes |
| Bus.FindIndex | ai_players/event_bus.py:121-122 | the loop finds the first position holding the id, or -1 |
| Bus.IndexOfFirst | ai_players/event_bus.py:121-122 | a position holding the id with none before it is the one found |
| Bus.Handled | ai_players/event_bus.py:163-171 | no more subscriptions are called than the list holds |
| Bus.HandledMembers | ai_players/event_bus.py:163-171 | exactly the subscriptions without a filter, or whose filter answers true without raising, are called |
| Bus.Handlers | ai_players/event_bus.py:163-171 | the loop collects exactly the subscriptions that take the event, in order |
| Bus.CountRaising | ai_players/event_bus.py:174-179 | the loop counts exactly the handlers that raise, never more than were called |
| Bus.PublishedSuffix | ai_players/event_bus.py:148-151 | after publishing, the history is still bounded and the newest part of everything published, in order |
| TestStats.InitialChips | v3/application/test_stats_service.py:89-91 | the configured `initial_total_chips`, and 0 when the configuration is empty or lacks it |
| TestStats.Counted | v3/application/test_stats_service.py:248 | the action type's count grows by one (from 0 when new); every other count stays |
| TestStats.CountsOf | v3/application/test_stats_service.py:248 | a dictionary of counts holds exactly the types of the multiset, each with its multiplicity |
| TestStats.CountedTracksSuccesses | v3/application/test_stats_service.py:248 | counting one more success of a type is the count of the successes with that type added |
| TestStats.AfterUserAction | v3/application/test_stats_service.py:242-252 | one more action; a success is counted and entered in the distribution under its type, a failure is counted and its non-empty message joins the errors |
| TestStats.UserActionTouchesOnlyActions | v3/application/test_stats_service.py:242-252 | nothing but the action counters, the distribution and the errors changes |
| TestStats.UserActionKeepsSession | v3/application/test_stats_service.py:242-252 | every action stays a success or a failure and the distribution stays the count of the successes by type |
| TestStats.ReportOf | v3/application/test_stats_service.py:368-420 | chip conservation is reported as holding exactly when the final chips equal the initial ones; the violation and error counts are those recorded |
| TestStats.ReportBounds | v3/application/test_stats_service.py:368-420 | a consistent record reports no more critical violations than violations, as many critical errors as critical violations, no more successes than actions, no type counted more than the successes, and no warnings |
| TestStats.CountAtMostSize | v3/application/test_stats_service.py:248 | no action type is counted more often than there are successes |
| TestStats.UpdateKeepsAllOk | v3/application/test_stats_service.py:85-91 | putting a consistent record under a session keeps every session's record consistent |
| TestStats.ReplaceKeepsAllOk | v3/application/test_stats_service.py:143-144 | replacing a record by one consistent with the same successes keeps every record consistent |
| TestStats.UserActionKeepsAllOk | v3/application/test_stats_service.py:242-252 | recording an action keeps every session's record consistent |
| TestStats.RemoveKeepsAllOk | v3/application/test_stats_service.py:433-438 | removing a session keeps the remaining records consistent |
| TestStats.SessionOf | v3/application/test_stats_service.py:63 | every stored session has a consistent record |
| TestStats.TestStatsService.constructor | v3/application/test_stats_service.py:62-65 | no sessions, no start times, no running hands |
| TestStats.TestStatsService.CreateTestSession | v3/application/test_stats_service.py:67-99 | an existing session is TEST_SESSION_EXISTS with nothing changed; otherwise a fresh record with the configured initial chips and a start time |
| TestStats.TestStatsService.GetTestStats | v3/application/test_stats_service.py:101-124 | the session's record, or TEST_SESSION_NOT_FOUND exactly when there is none |
| TestStats.TestStatsService.RecordHandStart | v3/application/test_stats_service.py:126-153 | one more hand attempted and a hand start time; an unknown session is TEST_SESSION_NOT_FOUND with nothing changed |
| TestStats.TestStatsService.RecordHandComplete | v3/application/test_stats_service.py:155-188 | one more hand completed and the running hand's start time dropped; unknown session as above |
| TestStats.TestStatsService.RecordHandFailed | v3/application/test_stats_service.py:190-218 | one more hand failed and its message joins the errors; unknown session as above |
| TestStats.TestStatsService.RecordUserAction | v3/application/test_stats_service.py:220-264 | the record becomes `AfterUserAction` of it and stays consistent; unknown session as above |
| TestStats.TestStatsService.RecordInvariantViolation | v3/application/test_stats_service.py:266-298 | the message joins the violations; a critical one adds one critical violation and one critical error; unknown session as above |
| TestStats.TestStatsService.RecordChipConservationViolation | v3/application/test_stats_service.py:300-327 | the message joins the conservation violations; unknown session as above |
| TestStats.TestStatsService.FinalizeTestSession | v3/application/test_stats_service.py:329-366 | given final chips are recorded; the report says chips were conserved exactly when they equal the initial chips; unknown session as above |
| TestStats.TestStatsService.CleanupSession | v3/application/test_stats_service.py:422-445 | the session, its start time and its running hand are gone, whether or not it existed, and it is no longer found |

## Left out

- Source outside this model.
  - The sources of `Player`, `Card`, `Deck`, `ChipLedger`, `BettingValidator`, the hand evaluator, the `GameEventType` enum and `v3/application/types.py` are not part of this model.
  - Player bets follow the unit tests of the player classes.
  - The ledger is a map from player ids to natural numbers, and its deduct fails on a short balance.
  - Event types are a set of names.
- The v3 snapshot type definitions and the base invariant checker class are not part of this model.
  - `snapshot_types.dfy` declares only the fields the checkers read.
  - Its helpers (`Pass`, `FailOnAny`, `ActivePlayers`, `Constructible`) have no row for that reason.
- The phase handlers' `GameContext` class is not part of this model.
  - `PhaseHandlers.GameContext` holds the fields the handlers read and write.
  - Its constructor has no row for that reason.
- Randomness is left out, because it is not deterministic:
  - deck shuffling;
  - `calculate_random_raise_amount` in `v3/application/query_service.py`;
  - all AI policy.
- Floating point and the clock are left out.
  - The test-statistics timings, averages and rates are not modelled, so the report keeps only its integer fields.
  - Timestamps and the clock are integer parameters.
- Logging, event messages, the `events` lists, and the domain events published by the command service are left out.
  - Where events are returned to a caller, they are kept (`RecentEvents`).
- Concurrency is left out: the event bus's lock and async handlers. The bus is single-threaded.
- Deep copies (`copy.deepcopy` in `atomic`, `phase_transition` and `create_snapshot`) are value copies. Aliasing between Python player objects is not modelled: players are values inside sequences.
- `Bus.EventBus` does not model `get_stats` or `get_subscription_count` (plain getters), nor `EventLogger` and `EventAggregator`. They are consumers of the bus, not part of it.
- `Bus.EventBus.Publish` takes each handler's behaviour as parameters. A filter's outcome and whether a handler raises are parameters; the handlers themselves are not run.
- `Betting.BettingEngine` does not model `is_round_complete`, frozen ledger chips or the action timestamps. `is_round_complete` defers to `BettingValidator`, whose source is not part of this model.
- `V2Controller.PokerController` does not model `execute_action`. It calls the v2 `validate_action` wrapper, which is not part of this model, and then `_apply_action` and the phase check, which are modelled.
- `V2Controller.PokerController` does not model `process_ai_action`, which asks an AI strategy for a move, or `get_snapshot`, which is a deep copy of the state.
- `AppController.PokerController` does not model `start_new_hand` and `_deal_hole_cards`. They shuffle a new deck and deal from it.
- `AppController.PokerController` does not model `process_betting_round`, which loops over a caller-supplied callback.
- `AppController.PokerController` does not model `get_available_actions`, which forwards to `core_game_logic/betting/action_validator.py`; that file is not part of this model.
- Getters and serialisation are left out: `to_dict`, `get_pot_summary`, and the plain field getters of every class.
- `CoreGameController.GameController.StartNewHand` checks the deck's size up front (DeckExhausted). The partial deal before the deck runs out is not modelled.
- `CoreGameController.GameController.StartNewHand` deals the hole cards the corrected way (third row of "## Findings"): to every player who held chips before the blinds. As written, a player whose blind took every chip gets no cards (`ReachedAsWritten`); the hand this member opens differs from the source's exactly for such a player.
- `CoreGameController.GameController.OpenHand` deals the corrected way, to `WithChips` of the table before the blinds, where the source skips a blind poster left with 0 chips.
- `CoreGameController.GameController.DealStage` deals to every listed index. The source tests `chips > 0` for each player at dealing time; `OpenHand` lists only players who held chips before the blinds.
- `CoreGameController.DealtInHand` proves the corrected deal (every player who held chips is in the hand with two cards). As written, this fails for a blind poster left ALL_IN with 0 chips (`AllInBlindDealtOut`).
- `CoreGameController.GameController.ClearTable` does not reset `current_player` to None. The table's current player is a seat number (`nat`), so after clearing it keeps its old value. Clearing stands for the whole of `start_new_hand` with fewer than two players holding chips.
- `CoreGameController.Cleared` keeps the old `currentPlayer` for the same reason.
- `CoreGameState.GameState` assumes distinct seat ids (`DistinctSeats`). A table with two players on one seat is not modelled.
- `Commands.GameCommandService.StartNewHand` checks the phase guard against the session's recorded phase. The state machine's `current_phase`, which is not part of this model, is taken to agree with it.
- `Queries.GetGameState` reports the session's recorded phase (`context.phase`). The source reads the state machine's `current_phase` (v3/application/query_service.py:106), which is taken to agree with it.
- `Queries.GetPhaseInfo` also reads `context.phase` where the source reads the state machine's `current_phase` (v3/application/query_service.py:307).
- `Commands.GameCommandService` takes the state machine's transition and the invariant checker's verdict as parameters. Two things follow:
  - When the state machine raises after it has already changed the context, the model keeps the session as it was. The partial update is not modelled.
  - The `SystemError` that `_verify_invariants` raises for an unexpected exception in the checker is not modelled. The verdict is a plain pass or fail.
- `Bus.Upper` raises only the ASCII letters a-z. Python's `str.upper` folds every Unicode letter and maps a few non-ASCII ones to ASCII (`ı` to `I`, `ſ` to `S`). So a string that the source accepts as an event type can be refused by the model.
- `SnapshotStore` keeps the context's `players` and `current_hand_bets` dictionaries as sequences of (key, value) entries. Distinct keys are not an invariant of these sequences; lookups take the first entry for a key.

## Findings

| source | as written | input that shows it | evidently intended | confidence | as-written member | corrected member |
|---|---|---|---|---|---|---|
| v2/core/pot.py:148-160 | `validate_side_pot_calculation` always counts the first tier as the smallest contribution times the number of contributors. `calculate_side_pots` builds no pot when only one player contributed, so the validator rejects that output. | contributions {0: 100}: `calculate_side_pots` gives [], the validator expects 100 and answers False | the validator accepts every split `calculate_side_pots` produces: a tier counts only while more than one player contributes to it | not executed | `SidePots.ValidateSidePotCalculationAsWritten` with `SidePots.AsWrittenRejectsLoneContributor` | `SidePots.ValidateSidePotCalculation` with `SidePots.CalculationValidates` |
| v2/core/validator.py:415-419 | `get_available_actions` offers BET whenever nothing is owed. Nothing is owed when the player's bet already matches a standing bet, and `_validate_bet` (lines 243-247) refuses every BET while a bet stands. | pre-flop big blind of 20 with its 20 in front of it, current bet 20, 1000 chips: BET is offered, and BET of 20 or 40 is an invalid action | BET is offered only when no bet stands, and RAISE whenever one does, so every offered action validates | not executed | `ActionValidation.AvailableActionsAsWritten` with `ActionValidation.OfferedBetRejectedAsWritten` | `ActionValidation.AvailableActions` with `ActionValidation.OfferedActionsValidate` |
| core_game_logic/game/game_controller.py:114-125 | the hole cards are dealt after `set_blinds`, and only to players whose chips are still above zero. A big blind who went all in posting stays in the hand with no cards. | seat 0 with 100 chips and seat 1 with 5 chips, big blind 10: seat 1 posts 5, is ALL_IN, and is dealt nothing | every player who held chips when the hand began is dealt two cards | not executed | `CoreGameController.ReachedAsWritten` with `CoreGameController.AllInBlindDealtOut` | `CoreGameController.DealHoles` with `CoreGameController.StartingPlayersDealt` |
