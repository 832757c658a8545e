/**
 * The v2 action validator: basic turn and status checks, the per-action rules, the
 * conversion of short-stacked CALL/BET/RAISE into ALL_IN, and the list of actions a
 * player is offered. The game state is reduced to the five values the validator reads.
 */
module ActionValidation {
  import opened Common
  import Players

  datatype ActionType = Fold | Check | Call | Bet | Raise | AllIn

  /** A player action: type, amount (0 for FOLD/CHECK) and the acting seat. */
  datatype Action = Action(kind: ActionType, amount: int, seat: nat)

  /** The action as submitted, the action to apply, and whether the validator converted it. */
  datatype ValidatedAction = ValidatedAction(original: Action, final: Action, converted: bool)

  /** `InvalidActionError` and `InsufficientChipsError`. */
  datatype ValidationError = InvalidAction | InsufficientChips

  /**
   * What the validator reads from the game state: the standing bet, the big blind, the last
   * raise increment, whose turn it is, and the acting player's bet this round.
   */
  datatype TableView = TableView(
    currentBet: int,
    bigBlind: int,
    lastRaiseAmount: int,
    currentPlayerSeat: Option<nat>,
    playerBet: int)

  /** `_calculate_call_amount`: what the player still owes, never negative. */
  function CallAmount(g: TableView): (r: int)
    ensures r >= 0 && r >= g.currentBet - g.playerBet
    ensures r == 0 || r == g.currentBet - g.playerBet
  {
    if g.currentBet - g.playerBet > 0 then g.currentBet - g.playerBet else 0
  }

  /** The smallest total a raise may reach: the standing bet plus the last raise, or the big blind if none. */
  function MinRaiseTotal(g: TableView): int {
    g.currentBet + (if g.lastRaiseAmount > 0 then g.lastRaiseAmount else g.bigBlind)
  }

  /** `_validate_basic_conditions`: an ACTIVE player, on turn, with a positive BET/RAISE amount. */
  predicate BasicOk(g: TableView, p: Players.Player, a: Action) {
    && p.status == Players.Active
    && g.currentPlayerSeat == Some(p.seat)
    && (a.kind == Bet || a.kind == Raise ==> a.amount > 0)
  }

  function Accept(a: Action, kind: ActionType, amount: int, seat: nat, converted: bool): Result<ValidatedAction, ValidationError> {
    Ok(ValidatedAction(a, Action(kind, amount, seat), converted))
  }

  function ValidateCall(g: TableView, p: Players.Player, a: Action): Result<ValidatedAction, ValidationError> {
    var owed := CallAmount(g);
    if owed == 0 then Accept(a, Check, 0, p.seat, true)
    else if p.chips < owed then Accept(a, AllIn, p.chips, p.seat, true)
    else Accept(a, Call, owed, p.seat, false)
  }

  function ValidateBet(g: TableView, p: Players.Player, a: Action): Result<ValidatedAction, ValidationError> {
    if g.currentBet > 0 then Err(InvalidAction)
    else if a.amount < g.bigBlind then Err(InvalidAction)
    else if p.chips < a.amount then Accept(a, AllIn, p.chips, p.seat, true)
    else Accept(a, Bet, a.amount, p.seat, false)
  }

  function ValidateRaise(g: TableView, p: Players.Player, a: Action): Result<ValidatedAction, ValidationError> {
    var allInTotal := g.playerBet + p.chips;
    if g.currentBet == 0 then Err(InvalidAction)
    else if a.amount == allInTotal && p.chips > 0 then
      if allInTotal <= g.currentBet then Err(InsufficientChips)
      else Accept(a, AllIn, allInTotal, p.seat, true)
    else if a.amount < MinRaiseTotal(g) then Err(InvalidAction)
    else if p.chips < a.amount - g.playerBet then
      if allInTotal < g.currentBet && p.chips > 0 then Err(InsufficientChips)
      else Accept(a, AllIn, allInTotal, p.seat, true)
    else Accept(a, Raise, a.amount, p.seat, false)
  }

  /**
   * `ActionValidator.validate`: the basic conditions first, then the rule for the action
   * type; the result is the action to apply or the error the validator raises.
   */
  function Validate(g: TableView, p: Players.Player, a: Action): (r: Result<ValidatedAction, ValidationError>)
    // any action: status, turn and a positive BET/RAISE amount come first
    ensures !BasicOk(g, p, a) ==> r == Err(InvalidAction)
    ensures r.Ok? ==> r.value.original == a && r.value.final.seat == p.seat
    ensures r.Ok? ==> (r.value.converted <==> r.value.final.kind != a.kind)
    // FOLD is always accepted, with amount 0
    ensures BasicOk(g, p, a) && a.kind == Fold ==> r.Ok? && r.value.final == Action(Fold, 0, p.seat)
    // CHECK only with nothing owed
    ensures BasicOk(g, p, a) && a.kind == Check ==>
      (r.Ok? <==> CallAmount(g) == 0) && (r.Ok? ==> r.value.final == Action(Check, 0, p.seat))
    // CALL never fails: CHECK with nothing owed, ALL_IN for the chips when short, else the amount owed
    ensures BasicOk(g, p, a) && a.kind == Call ==>
      && r.Ok?
      && r.value.final == (if CallAmount(g) == 0 then Action(Check, 0, p.seat)
                           else if p.chips < CallAmount(g) then Action(AllIn, p.chips, p.seat)
                           else Action(Call, CallAmount(g), p.seat))
    // BET only without a standing bet and at least the big blind; ALL_IN for the chips when short
    ensures BasicOk(g, p, a) && a.kind == Bet ==>
      && (r.Ok? <==> g.currentBet <= 0 && a.amount >= g.bigBlind)
      && (r.Ok? ==> r.value.final == Action(if p.chips < a.amount then AllIn else Bet, if p.chips < a.amount then p.chips else a.amount, p.seat))
    // ALL_IN needs chips and is for exactly the chips
    ensures BasicOk(g, p, a) && a.kind == AllIn ==>
      (r.Ok? <==> p.chips > 0) && (r.Ok? ==> r.value.final == Action(AllIn, p.chips, p.seat))
    // an unconverted RAISE reaches the minimum raise and is affordable
    ensures r.Ok? && r.value.final.kind == Raise ==>
      && a.kind == Raise && g.currentBet != 0
      && MinRaiseTotal(g) <= a.amount <= g.playerBet + p.chips
      && r.value.final.amount == a.amount
    // a RAISE turned into ALL_IN is for the player's whole stack this round, and more than the standing bet
    // unless the player has no chips at all
    ensures r.Ok? && a.kind == Raise && r.value.final.kind == AllIn ==>
      && r.value.final.amount == g.playerBet + p.chips
      && (p.chips > 0 ==> r.value.final.amount >= g.currentBet)
      && (a.amount == g.playerBet + p.chips && p.chips > 0 ==> r.value.final.amount > g.currentBet)
    // a RAISE against a standing bet: the exact all-in total is an ALL_IN when it tops the line; from the
    // minimum raise up, a covered raise is accepted at its amount and an uncovered one is an ALL_IN for the
    // whole stack unless that leaves the player below the line
    ensures BasicOk(g, p, a) && a.kind == Raise && g.currentBet != 0 ==>
      var allInTotal := g.playerBet + p.chips;
      && (a.amount == allInTotal && p.chips > 0 ==>
            if allInTotal <= g.currentBet then r == Err(InsufficientChips)
            else r.Ok? && r.value.final == Action(AllIn, allInTotal, p.seat))
      && (!(a.amount == allInTotal && p.chips > 0) && a.amount >= MinRaiseTotal(g) ==>
            if p.chips >= a.amount - g.playerBet then r.Ok? && r.value.final == Action(Raise, a.amount, p.seat)
            else if allInTotal < g.currentBet && p.chips > 0 then r == Err(InsufficientChips)
            else r.Ok? && r.value.final == Action(AllIn, allInTotal, p.seat))
    // a RAISE is refused when nothing stands, or when below the minimum without being the exact all-in total
    ensures BasicOk(g, p, a) && a.kind == Raise ==>
      && (g.currentBet == 0 ==> r == Err(InvalidAction))
      && (g.currentBet != 0 && a.amount < MinRaiseTotal(g) && !(a.amount == g.playerBet + p.chips && p.chips > 0) ==>
            r == Err(InvalidAction))
      && (r == Err(InsufficientChips) ==> p.chips > 0 && g.playerBet + p.chips <= g.currentBet)
  {
    if !BasicOk(g, p, a) then Err(InvalidAction)
    else match a.kind
      case Fold => Accept(a, Fold, 0, p.seat, false)
      case Check => if CallAmount(g) > 0 then Err(InvalidAction) else Accept(a, Check, 0, p.seat, false)
      case Call => ValidateCall(g, p, a)
      case Bet => ValidateBet(g, p, a)
      case Raise => ValidateRaise(g, p, a)
      case AllIn => if p.chips == 0 then Err(InvalidAction) else Accept(a, AllIn, p.chips, p.seat, false)
  }

  /** Every accepted action costs at most the player's chips this round. */
  lemma AcceptedIsAffordable(g: TableView, p: Players.Player, a: Action)
    requires g.playerBet >= 0
    ensures var r := Validate(g, p, a);
      r.Ok? ==>
        var f := r.value.final;
        match f.kind
        case Fold => f.amount == 0
        case Check => f.amount == 0
        case Call => 0 < f.amount <= p.chips
        case Bet => 0 < f.amount <= p.chips
        case Raise => f.amount - g.playerBet <= p.chips
        case AllIn => f.amount == p.chips || f.amount == g.playerBet + p.chips
  {
  }

  /**
   * `get_available_actions` as written: nothing for a player who is not ACTIVE; otherwise
   * FOLD, then CHECK (and BET with chips for a big blind) when nothing is owed, or CALL
   * (and RAISE when the chips cover the minimum raise), then ALL_IN with chips.
   */
  function AvailableActionsAsWritten(g: TableView, p: Players.Player): (r: seq<ActionType>)
    ensures p.status != Players.Active ==> r == []
    ensures p.status == Players.Active ==>
      && Fold in r
      && (Check in r <==> CallAmount(g) == 0)
      && (Call in r <==> CallAmount(g) > 0)
      && (Bet in r <==> CallAmount(g) == 0 && p.chips >= g.bigBlind)
      && (Raise in r <==> CallAmount(g) > 0 && p.chips > CallAmount(g) && p.chips >= MinRaiseTotal(g) - g.playerBet)
      && (AllIn in r <==> p.chips > 0)
    ensures Distinct(r)
  {
    if p.status != Players.Active then []
    else
      var owed := CallAmount(g);
      var middle :=
        if owed == 0 then [Check] + (if p.chips >= g.bigBlind then [Bet] else [])
        else [Call] + (if p.chips > owed && p.chips >= MinRaiseTotal(g) - g.playerBet then [Raise] else []);
      [Fold] + middle + (if p.chips > 0 then [AllIn] else [])
  }

  /**
   * The big blind facing no raise owes nothing, so BET is offered, yet `validate` refuses any
   * BET while a bet stands.
   */
  lemma OfferedBetRejectedAsWritten()
    ensures var g := TableView(20, 20, 0, Some(2), 20);
      var p := Players.NewPlayer(2, 1000);
      && Bet in AvailableActionsAsWritten(g, p)
      && Validate(g, p, Action(Bet, 20, 2)) == Err(InvalidAction)
      && Validate(g, p, Action(Bet, 40, 2)) == Err(InvalidAction)
  {
    var g := TableView(20, 20, 0, Some(2), 20);
    var p := Players.NewPlayer(2, 1000);
    assert CallAmount(g) == 0;
  }

  /**
   * `get_available_actions` with BET offered only when no bet stands, and RAISE offered
   * whenever a bet stands and the chips reach the minimum raise (which covers the player
   * who has already matched the standing bet).
   */
  function AvailableActions(g: TableView, p: Players.Player): (r: seq<ActionType>)
    ensures p.status != Players.Active ==> r == []
    ensures p.status == Players.Active ==>
      && Fold in r
      && (Check in r <==> CallAmount(g) == 0)
      && (Call in r <==> CallAmount(g) > 0)
      && (Bet in r <==> g.currentBet <= 0 && CallAmount(g) == 0 && p.chips >= g.bigBlind)
      && (Raise in r <==> g.currentBet > 0 && p.chips > CallAmount(g) && p.chips >= MinRaiseTotal(g) - g.playerBet)
      && (AllIn in r <==> p.chips > 0)
    ensures Distinct(r)
  {
    if p.status != Players.Active then []
    else
      var owed := CallAmount(g);
      var canRaise := g.currentBet > 0 && p.chips > owed && p.chips >= MinRaiseTotal(g) - g.playerBet;
      var middle :=
        if owed == 0 then [Check] + (if g.currentBet <= 0 && p.chips >= g.bigBlind then [Bet] else [])
        else [Call];
      [Fold] + middle + (if canRaise then [Raise] else []) + (if p.chips > 0 then [AllIn] else [])
  }

  /** The amount offered with each action type: the big blind for BET, the minimum total for RAISE. */
  function OfferedAmount(g: TableView, p: Players.Player, kind: ActionType): int {
    match kind
    case Bet => g.bigBlind
    case Raise => MinRaiseTotal(g)
    case AllIn => p.chips
    case _ => 0
  }

  /**
   * On the player's turn, every offered action validates at its offered amount, and only
   * CALL may be converted (to ALL_IN, when short); RAISE may become the all-in it equals.
   */
  lemma OfferedActionsValidate(g: TableView, p: Players.Player, kind: ActionType)
    requires g.bigBlind > 0 && 0 <= g.playerBet && g.lastRaiseAmount >= 0
    requires g.currentPlayerSeat == Some(p.seat)
    requires kind in AvailableActions(g, p)
    ensures var r := Validate(g, p, Action(kind, OfferedAmount(g, p, kind), p.seat));
      && r.Ok?
      && (r.value.final.kind == kind || (kind == Call && r.value.final.kind == AllIn)
          || (kind == Raise && r.value.final.kind == AllIn))
  {
  }

  /** CHECK is offered exactly when `validate` accepts a CHECK on the player's turn. */
  lemma CheckOfferedIffValid(g: TableView, p: Players.Player)
    requires g.currentPlayerSeat == Some(p.seat)
    ensures Check in AvailableActions(g, p) <==> Validate(g, p, Action(Check, 0, p.seat)).Ok?
  {
  }
}
