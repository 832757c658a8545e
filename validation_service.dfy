/**
 * The v3 application-layer validation service: the rules a player action must obey
 * (action type, chip movement, betting amounts, phase), chip conservation, the consistency
 * of a game-state snapshot and the phase-transition table. Every validator builds a list of
 * the rules it found broken and reports the state valid iff that list is empty.
 */
module Validation {
  import opened Common
  import opened Phases
  import PC = PhaseConsistency

  /** The `rule_name` of each error the service can report. */
  datatype Rule =
    | ValidActionType | CheckPrerequisite | CallPrerequisite | RaiseAmountPositive | AllInAmountEqualsChips
    | ChipsChangeConsistency | BetChangeConsistency | ChipsNonNegative
    | RaiseBigBlindMultiple | MinimumRaiseRule | CallAmountCorrect
    | PhaseAllowsBetting
    | ChipConservation
    | MinimumPlayers | MaximumPlayers | ActivePlayerDesignation | PotNonNegative
    | ValidSourcePhase | ValidPhaseTransition

  /** `ValidationResult`: messages and expected/actual values of each error are not modelled. */
  datatype ValidationResult = ValidationResult(isValid: bool, errors: seq<Rule>, warnings: seq<Rule>, checksPerformed: nat)

  type Positive = x: int | x > 0 witness 1

  /**
   * `GameRulesConfig`. The float `min_raise_multiplier` is the fraction
   * `minRaiseNum / minRaiseDen`.
   */
  datatype GameRules = GameRules(
    smallBlind: int,
    bigBlind: int,
    initialChips: int,
    maxPlayers: int,
    minPlayers: int,
    bettingPhases: seq<string>,
    minRaiseNum: int,
    minRaiseDen: Positive)

  /** The defaults the service falls back to when no configuration can be loaded. */
  const DefaultRules: GameRules :=
    GameRules(5, 10, 1000, 10, 2, ["PRE_FLOP", "FLOP", "TURN", "RIVER"], 1, 1)

  /** A player's dictionary as the service reads it: an absent key reads as 0 or False. */
  datatype PlayerData = PlayerData(chips: int, active: bool, currentBet: int)

  /** What `players.get(player_id, {})` yields for a player who is not in the dictionary. */
  const Absent: PlayerData := PlayerData(0, false, 0)

  /** The parts of a game-state snapshot the validators read. */
  datatype GameView = GameView(
    currentPhase: string,
    players: map<string, PlayerData>,
    potTotal: int,
    currentBet: int,
    activePlayerId: Option<string>)

  function Lookup(players: map<string, PlayerData>, id: string): PlayerData {
    if id in players then players[id] else Absent
  }

  const ValidActions: seq<string> := ["fold", "check", "call", "raise", "all_in"]

  /** A result that is valid iff no error was recorded. */
  function Checked(errors: seq<Rule>, warnings: seq<Rule>, checks: nat): (r: ValidationResult)
    ensures r.isValid <==> |errors| == 0
    ensures r.errors == errors && r.warnings == warnings && r.checksPerformed == checks
  {
    ValidationResult(errors == [], errors, warnings, checks)
  }

  // ---------------------------------------------------------------- player actions

  /** `_validate_action_type`: the errors in the order the checks run. */
  function ActionTypeErrors(action: string, amount: int, chips: int, currentBet: int): (r: seq<Rule>)
    ensures ValidActionType in r <==> action !in ValidActions
    ensures CheckPrerequisite in r <==> action == "check" && currentBet > 0
    ensures CallPrerequisite in r <==> action == "call" && currentBet == 0
    ensures RaiseAmountPositive in r <==> (action == "raise" || action == "all_in") && amount <= 0
    ensures AllInAmountEqualsChips in r <==> action == "all_in" && amount != chips
    ensures forall k :: 0 <= k < |r| ==>
      r[k] in {ValidActionType, CheckPrerequisite, CallPrerequisite, RaiseAmountPositive, AllInAmountEqualsChips}
  {
    (if action !in ValidActions then [ValidActionType] else [])
    + (if action == "check" && currentBet > 0 then [CheckPrerequisite] else [])
    + (if action == "call" && currentBet == 0 then [CallPrerequisite] else [])
    + (if (action == "raise" || action == "all_in") && amount <= 0 then [RaiseAmountPositive] else [])
    + (if action == "all_in" && amount != chips then [AllInAmountEqualsChips] else [])
  }

  /** The action-type rules report nothing iff none of their five conditions holds. */
  lemma ActionTypePasses(action: string, amount: int, chips: int, currentBet: int)
    ensures ActionTypeErrors(action, amount, chips, currentBet) == [] <==>
      action in ValidActions && !(action == "check" && currentBet > 0) && !(action == "call" && currentBet == 0)
      && !((action == "raise" || action == "all_in") && amount <= 0) && !(action == "all_in" && amount != chips)
  {
    var r := ActionTypeErrors(action, amount, chips, currentBet);
    if r != [] {
      assert r[0] in r;
    }
  }

  /**
   * With a current bet that is not negative, exactly one of check and call passes the
   * action-type rules; an all-in passes iff it stakes the whole, positive, stack.
   */
  lemma CheckOrCall(amount: int, chips: int, currentBet: int)
    requires currentBet >= 0
    ensures (|ActionTypeErrors("check", amount, chips, currentBet)| == 0) != (|ActionTypeErrors("call", amount, chips, currentBet)| == 0)
    ensures |ActionTypeErrors("all_in", amount, chips, currentBet)| == 0 <==> amount == chips && chips > 0
  {
    var check, call := ActionTypeErrors("check", amount, chips, currentBet), ActionTypeErrors("call", amount, chips, currentBet);
    if currentBet > 0 {
      assert CheckPrerequisite in check;
      assert "call" in ValidActions;
    } else {
      assert CallPrerequisite in call;
      assert "check" in ValidActions;
    }
    var allIn := ActionTypeErrors("all_in", amount, chips, currentBet);
    assert "all_in" in ValidActions;
    if |allIn| > 0 {
      assert allIn[0] in allIn;
    }
  }

  /** The chip and bet changes `_validate_chips_change` expects; an unknown type expects none. */
  function ExpectedChange(action: string, amount: int): (int, int) {
    if action == "call" || action == "raise" || action == "all_in" then (-amount, amount) else (0, 0)
  }

  /** `_validate_chips_change`: the bet change is not checked for a fold. */
  function ChipsChangeErrors(action: string, amount: int, chipsBefore: int, chipsAfter: int, betBefore: int, betAfter: int): (r: seq<Rule>)
    ensures ChipsChangeConsistency in r <==> chipsAfter - chipsBefore != ExpectedChange(action, amount).0
    ensures BetChangeConsistency in r <==> action != "fold" && betAfter - betBefore != ExpectedChange(action, amount).1
    ensures ChipsNonNegative in r <==> chipsAfter < 0
    ensures forall k :: 0 <= k < |r| ==> r[k] in {ChipsChangeConsistency, BetChangeConsistency, ChipsNonNegative}
  {
    var (chipsChange, betChange) := ExpectedChange(action, amount);
    (if chipsAfter - chipsBefore != chipsChange then [ChipsChangeConsistency] else [])
    + (if action != "fold" && betAfter - betBefore != betChange then [BetChangeConsistency] else [])
    + (if chipsAfter < 0 then [ChipsNonNegative] else [])
  }

  /**
   * A call, raise or all-in passes the chip checks iff it moves exactly `amount` from the
   * stack to the bet, and the stack held at least that much.
   */
  lemma ChipsChangeIsTransfer(action: string, amount: int, chipsBefore: int, chipsAfter: int, betBefore: int, betAfter: int)
    requires action == "call" || action == "raise" || action == "all_in"
    ensures |ChipsChangeErrors(action, amount, chipsBefore, chipsAfter, betBefore, betAfter)| == 0 <==>
      chipsAfter == chipsBefore - amount && betAfter == betBefore + amount && chipsBefore >= amount
  {
    var r := ChipsChangeErrors(action, amount, chipsBefore, chipsAfter, betBefore, betAfter);
    if |r| > 0 {
      assert r[0] in r;
    }
  }

  /** A fold passes with any bet change, as long as the stack is untouched and not negative. */
  lemma FoldIgnoresBet(chips: int, betBefore: int, betAfter: int)
    ensures |ChipsChangeErrors("fold", 0, chips, chips, betBefore, betAfter)| == 0 <==> chips >= 0
  {
    var r := ChipsChangeErrors("fold", 0, chips, chips, betBefore, betAfter);
    if |r| > 0 {
      assert r[0] in r;
    }
  }

  /**
   * `_validate_betting_rules`; None where `amount % big_blind` raises because the big blind
   * is zero. A raise must be a multiple of the big blind and reach the current bet times the
   * minimum-raise multiplier; a call must be exactly what is owed.
   */
  function BettingRuleErrors(rules: GameRules, action: string, amount: int, betBefore: int, betAfter: int, currentBet: int): (r: Option<seq<Rule>>)
    ensures r.None? <==> action == "raise" && rules.bigBlind == 0
    ensures r.Some? ==> (RaiseBigBlindMultiple in r.value <==> action == "raise" && amount % rules.bigBlind != 0)
    ensures r.Some? ==> (MinimumRaiseRule in r.value <==>
      action == "raise" && betAfter * rules.minRaiseDen < currentBet * rules.minRaiseNum)
    ensures r.Some? ==> (CallAmountCorrect in r.value <==>
      action == "call" && amount != (if currentBet - betBefore > 0 then currentBet - betBefore else 0))
    ensures r.Some? ==> forall k :: 0 <= k < |r.value| ==>
      r.value[k] in {RaiseBigBlindMultiple, MinimumRaiseRule, CallAmountCorrect}
  {
    if action == "raise" then
      if rules.bigBlind == 0 then None
      else
        Some((if amount % rules.bigBlind != 0 then [RaiseBigBlindMultiple] else [])
          + (if betAfter * rules.minRaiseDen < currentBet * rules.minRaiseNum then [MinimumRaiseRule] else []))
    else if action == "call" then
      var owed := if currentBet - betBefore > 0 then currentBet - betBefore else 0;
      Some(if amount != owed then [CallAmountCorrect] else [])
    else Some([])
  }

  /**
   * A call that passes both the chip checks and the betting rules leaves the player's bet
   * at the current bet (or where it was, if already above it), with the chips the call
   * took coming out of the stack.
   */
  lemma AcceptedCallMatches(rules: GameRules, amount: int, chipsBefore: int, chipsAfter: int, betBefore: int, betAfter: int, currentBet: int)
    requires |ChipsChangeErrors("call", amount, chipsBefore, chipsAfter, betBefore, betAfter)| == 0
    requires BettingRuleErrors(rules, "call", amount, betBefore, betAfter, currentBet) == Some([])
    ensures betAfter == (if currentBet > betBefore then currentBet else betBefore)
    ensures chipsAfter + betAfter == chipsBefore + betBefore && chipsAfter >= 0
  {
    ChipsChangeIsTransfer("call", amount, chipsBefore, chipsAfter, betBefore, betAfter);
    assert CallAmountCorrect !in BettingRuleErrors(rules, "call", amount, betBefore, betAfter, currentBet).value;
  }

  /** Under the default rules a raise passes iff it is a multiple of 10 and the new bet reaches the current bet. */
  lemma DefaultRaiseRule(amount: int, betBefore: int, betAfter: int, currentBet: int)
    ensures BettingRuleErrors(DefaultRules, "raise", amount, betBefore, betAfter, currentBet) == Some([]) <==>
      amount % 10 == 0 && betAfter >= currentBet
  {
    var r := BettingRuleErrors(DefaultRules, "raise", amount, betBefore, betAfter, currentBet);
    if r.value != [] {
      assert r.value[0] in r.value;
    }
  }

  /** `_validate_phase_rules`: players may act only in a configured betting phase. */
  function PhaseRuleErrors(rules: GameRules, phase: string): (r: seq<Rule>)
    ensures |r| == 0 <==> phase in rules.bettingPhases
    ensures forall k :: 0 <= k < |r| ==> r[k] == PhaseAllowsBetting
  {
    if phase !in rules.bettingPhases then [PhaseAllowsBetting] else []
  }

  /** The configured betting phases are exactly PRE_FLOP, FLOP, TURN and RIVER. */
  lemma DefaultBettingPhases(p: Phase)
    ensures |PhaseRuleErrors(DefaultRules, Name(p))| == 0 <==> p in {PreFlop, Flop, Turn, River}
  {
    if p !in {PreFlop, Flop, Turn, River} {
      assert Name(p) !in DefaultRules.bettingPhases;
    }
  }

  /**
   * `validate_player_action_rules`: the four checks run in order against the acting
   * player's dictionaries before and after the action; the error code is the one a
   * raised exception turns into.
   */
  function ValidatePlayerActionRules(rules: GameRules, playerId: string, action: string, amount: int, before: GameView, after: GameView): (r: Result<ValidationResult, string>)
    ensures r.Err? <==> action == "raise" && rules.bigBlind == 0
    ensures r.Err? ==> r.error == "VALIDATE_PLAYER_ACTION_FAILED"
    ensures r.Ok? ==> r.value.checksPerformed == 4 && r.value.warnings == []
    ensures r.Ok? ==>
      var p, q := Lookup(before.players, playerId), Lookup(after.players, playerId);
      r.value.errors ==
        ActionTypeErrors(action, amount, p.chips, before.currentBet)
        + ChipsChangeErrors(action, amount, p.chips, q.chips, p.currentBet, q.currentBet)
        + BettingRuleErrors(rules, action, amount, p.currentBet, q.currentBet, before.currentBet).value
        + PhaseRuleErrors(rules, before.currentPhase)
    ensures r.Ok? ==> (r.value.isValid <==> |r.value.errors| == 0)
  {
    var p, q := Lookup(before.players, playerId), Lookup(after.players, playerId);
    match BettingRuleErrors(rules, action, amount, p.currentBet, q.currentBet, before.currentBet)
    case None => Err("VALIDATE_PLAYER_ACTION_FAILED")
    case Some(betting) =>
      var errors := ActionTypeErrors(action, amount, p.chips, before.currentBet)
        + ChipsChangeErrors(action, amount, p.chips, q.chips, p.currentBet, q.currentBet)
        + betting
        + PhaseRuleErrors(rules, before.currentPhase);
      Ok(Checked(errors, [], 4))
  }

  /** The state after `id` puts `amount` more into the pot: stack down, bet up, pot up. */
  function Moved(g: GameView, id: string, amount: int): GameView {
    var p := Lookup(g.players, id);
    g.(players := g.players[id := p.(chips := p.chips - amount, currentBet := p.currentBet + amount)],
       potTotal := g.potTotal + amount)
  }

  /**
   * Under the default rules, a call of exactly what is owed, made in a betting phase
   * while a bet is open by a player whose stack covers it, is accepted.
   */
  lemma HonestCallAccepted(before: GameView, id: string)
    requires before.currentPhase in DefaultRules.bettingPhases && before.currentBet > 0
    requires Lookup(before.players, id).currentBet <= before.currentBet
    requires Lookup(before.players, id).chips >= before.currentBet - Lookup(before.players, id).currentBet
    ensures var owed := before.currentBet - Lookup(before.players, id).currentBet;
      ValidatePlayerActionRules(DefaultRules, id, "call", owed, before, Moved(before, id, owed)) == Ok(ValidationResult(true, [], [], 4))
  {
    var p := Lookup(before.players, id);
    var owed := before.currentBet - p.currentBet;
    var after := Moved(before, id, owed);
    assert Lookup(after.players, id) == p.(chips := p.chips - owed, currentBet := p.currentBet + owed);
    assert "call" in ValidActions;
    var a := ActionTypeErrors("call", owed, p.chips, before.currentBet);
    if |a| > 0 {
      assert a[0] in a;
    }
    ChipsChangeIsTransfer("call", owed, p.chips, p.chips - owed, p.currentBet, p.currentBet + owed);
  }

  /**
   * Every accepted action keeps the player's chips plus bet, except a fold, which may
   * change the bet without the stack moving.
   */
  lemma AcceptedActionConserves(rules: GameRules, id: string, action: string, amount: int, before: GameView, after: GameView)
    requires action != "fold"
    requires ValidatePlayerActionRules(rules, id, action, amount, before, after).Ok?
    requires ValidatePlayerActionRules(rules, id, action, amount, before, after).value.isValid
    ensures Lookup(after.players, id).chips + Lookup(after.players, id).currentBet ==
      Lookup(before.players, id).chips + Lookup(before.players, id).currentBet
    ensures Lookup(after.players, id).chips >= 0
    ensures action in ValidActions && before.currentPhase in rules.bettingPhases
  {
    var p, q := Lookup(before.players, id), Lookup(after.players, id);
    var a := ActionTypeErrors(action, amount, p.chips, before.currentBet);
    var c := ChipsChangeErrors(action, amount, p.chips, q.chips, p.currentBet, q.currentBet);
    var b := BettingRuleErrors(rules, action, amount, p.currentBet, q.currentBet, before.currentBet).value;
    var f := PhaseRuleErrors(rules, before.currentPhase);
    assert |a| == 0 && |c| == 0 && |f| == 0;
    assert ChipsChangeConsistency !in c && BetChangeConsistency !in c && ChipsNonNegative !in c;
    assert ValidActionType !in a;
  }

  // ---------------------------------------------------------------- conservation and consistency

  /** `validate_chip_conservation`: the players' chips plus the pot must equal the starting total. */
  function ValidateChipConservation(initialTotal: int, playersTotal: int, potTotal: int): (r: ValidationResult)
    ensures r.isValid <==> playersTotal + potTotal == initialTotal
    ensures r.errors == (if r.isValid then [] else [ChipConservation])
    ensures r.warnings == [] && r.checksPerformed == 1
  {
    Checked(if playersTotal + potTotal != initialTotal then [ChipConservation] else [], [], 1)
  }

  /** Moving chips from a player's stack into the pot keeps a conserved state conserved. */
  lemma BetKeepsConservation(initialTotal: int, playersTotal: int, potTotal: int, amount: int)
    requires ValidateChipConservation(initialTotal, playersTotal, potTotal).isValid
    ensures ValidateChipConservation(initialTotal, playersTotal - amount, potTotal + amount).isValid
  {
  }

  /** The ids of the players whose dictionary marks them active. */
  function ActiveIds(players: map<string, PlayerData>): (r: set<string>)
    ensures forall id :: id in r <==> id in players && players[id].active
  {
    set id | id in players && players[id].active
  }

  /** `not game_state.active_player_id`: no id, or the empty string. */
  predicate NoActivePlayer(g: GameView) {
    g.activePlayerId.None? || g.activePlayerId.value == ""
  }

  /**
   * `validate_game_state_consistency`: too few or too many players (one error, the first
   * test winning) and a negative pot are errors; several active players with nobody
   * designated to act is only a warning.
   */
  function ValidateGameStateConsistency(rules: GameRules, g: GameView): (r: ValidationResult)
    ensures r.isValid <==> rules.minPlayers <= |g.players| <= rules.maxPlayers && g.potTotal >= 0
    ensures MinimumPlayers in r.errors <==> |g.players| < rules.minPlayers
    ensures MaximumPlayers in r.errors <==> rules.minPlayers <= |g.players| && |g.players| > rules.maxPlayers
    ensures PotNonNegative in r.errors <==> g.potTotal < 0
    ensures r.warnings == (if |ActiveIds(g.players)| > 1 && NoActivePlayer(g) then [ActivePlayerDesignation] else [])
    ensures r.checksPerformed == 3
  {
    var n := |g.players|;
    var countErrors :=
      if n < rules.minPlayers then [MinimumPlayers]
      else if n > rules.maxPlayers then [MaximumPlayers]
      else [];
    var warnings := if |ActiveIds(g.players)| > 1 && NoActivePlayer(g) then [ActivePlayerDesignation] else [];
    Checked(countErrors + (if g.potTotal < 0 then [PotNonNegative] else []), warnings, 3)
  }

  /** The designation of the acting player never decides validity. */
  lemma DesignationOnlyWarns(rules: GameRules, g: GameView, who: Option<string>)
    ensures ValidateGameStateConsistency(rules, g).isValid == ValidateGameStateConsistency(rules, g.(activePlayerId := who)).isValid
  {
  }

  // ---------------------------------------------------------------- phase transitions

  /** `valid_transitions` of `validate_phase_transition`, keyed by phase name. */
  const TransitionTable: map<string, seq<string>> := map[
    "INIT" := ["PRE_FLOP"],
    "PRE_FLOP" := ["FLOP", "FINISHED"],
    "FLOP" := ["TURN", "FINISHED"],
    "TURN" := ["RIVER", "FINISHED"],
    "RIVER" := ["SHOWDOWN", "FINISHED"],
    "SHOWDOWN" := ["FINISHED"],
    "FINISHED" := ["INIT"]]

  /** `validate_phase_transition`: an unknown source is one error, a transition not in the table another. */
  function ValidatePhaseTransition(from: string, to: string): (r: ValidationResult)
    ensures r.isValid <==> from in TransitionTable && to in TransitionTable[from]
    ensures r.errors == (if from !in TransitionTable then [ValidSourcePhase]
                         else if to !in TransitionTable[from] then [ValidPhaseTransition] else [])
    ensures r.warnings == [] && r.checksPerformed == 1
  {
    var errors :=
      if from !in TransitionTable then [ValidSourcePhase]
      else if to !in TransitionTable[from] then [ValidPhaseTransition]
      else [];
    Checked(errors, [], 1)
  }

  /** The place of each phase in one hand; INIT comes again after FINISHED. */
  function Step(p: Phase): nat {
    match p
    case Init => 0
    case PreFlop => 1
    case Flop => 2
    case Turn => 3
    case River => 4
    case Showdown => 5
    case Finished => 6
  }

  /**
   * Between phases, the table accepts exactly one step forward, a jump to FINISHED from a
   * betting street, and the wrap from FINISHED back to INIT; every known name is a source.
   */
  lemma PhaseTransitionsByPhase(from: Phase, to: Phase)
    ensures Name(from) in TransitionTable
    ensures ValidatePhaseTransition(Name(from), Name(to)).isValid <==>
      (from != Finished && Step(to) == Step(from) + 1)
      || (to == Finished && from in {PreFlop, Flop, Turn, River})
      || (from == Finished && to == Init)
  {
  }

  /** A name that is no phase's name is rejected as a source, whatever the target. */
  lemma UnknownSourceRejected(from: string, to: string)
    requires forall p: Phase :: Name(p) != from
    ensures ValidatePhaseTransition(from, to).errors == [ValidSourcePhase]
  {
    assert Name(Init) != from && Name(PreFlop) != from && Name(Flop) != from && Name(Turn) != from;
    assert Name(River) != from && Name(Showdown) != from && Name(Finished) != from;
  }

  /**
   * The service's table and the phase-consistency checker's table disagree: the checker
   * lets a betting street jump straight to SHOWDOWN and gives FINISHED no successor, where
   * the service does the opposite. Elsewhere they agree.
   */
  lemma TablesDisagree(from: Phase, to: Phase)
    ensures ValidatePhaseTransition(Name(from), Name(to)).isValid != PC.CheckPhaseTransition(from, to).passed <==>
      (from in {PreFlop, Flop, Turn} && to == Showdown) || (from == Finished && to == Init)
  {
  }
}
