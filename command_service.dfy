/**
 * The v3 command service: a registry of game sessions keyed by game id, kept in the order
 * the games were created, and the commands that create, advance and remove them.
 *
 * The state machine that a session drives, the invariant checker that approves a command's
 * outcome, id generation and the event bus are not part of this model: what the state
 * machine does to a context, and whether the invariant checker accepts it, are parameters.
 */
module Commands {
  import opened Common
  import opened Phases
  import V = Validation

  /** `CommandResult`: success, or one of its three failure kinds with the error code. */
  datatype CommandResult =
    | Success
    | ValidationFailed(code: string)
    | RuleViolated(code: string)
    | Failed(code: string)

  /** The game context a session carries; the player dictionaries are read with their defaults. */
  datatype Context = Context(
    gameId: string,
    phase: Phase,
    players: map<string, V.PlayerData>,
    communityCards: seq<Card>,
    potTotal: int,
    currentBet: int,
    activePlayerId: Option<string>,
    smallBlind: int,
    bigBlind: int,
    bigBlindAmount: Option<int>)

  datatype Session = Session(gameId: string, context: Context)

  datatype PlayerAction = PlayerAction(actionType: string, amount: int)

  /** An exception the state machine may raise, by the handler that catches it. */
  datatype Raised = RaisedValidation(code: string) | RaisedBusinessRule(code: string) | RaisedOther

  /** What the state machine does with a command: the new context, or an exception. */
  datatype MachineOutcome = Moved(context: Context) | Threw(error: Raised)

  /** The two players a game gets when no ids are given. */
  const DefaultPlayerIds: seq<string> := ["player_0", "player_1"]

  /** A fresh game: INIT, every player active with 1000 chips, an empty pot and blinds of 50/100. */
  function NewContext(gameId: string, playerIds: seq<string>): (c: Context)
    ensures c.phase == Init && c.potTotal == 0 && c.currentBet == 0
    ensures c.smallBlind == 50 && c.bigBlind == 100
    ensures forall id :: id in c.players <==> id in playerIds
    ensures forall id :: id in c.players ==> c.players[id] == V.PlayerData(1000, true, 0)
  {
    Context(gameId, Init, map id | id in playerIds :: V.PlayerData(1000, true, 0), [], 0, 0, None, 50, 100, None)
  }

  /** The view the validation service reads of a context. */
  function View(c: Context): V.GameView {
    V.GameView(Name(c.phase), c.players, c.potTotal, c.currentBet, c.activePlayerId)
  }

  /** With distinct ids, a new game has as many players as ids. */
  lemma {:induction false} NewPlayerCount(playerIds: seq<string>)
    requires Distinct(playerIds)
    ensures |NewContext("", playerIds).players| == |playerIds|
  {
    var ps := NewContext("", playerIds).players;
    assert ps.Keys == set id | id in playerIds;
    DistinctSetSize(playerIds);
  }

  /** A sequence without repeats has as many distinct elements as entries. */
  lemma {:induction false} DistinctSetSize(s: seq<string>)
    requires Distinct(s)
    ensures |set x | x in s| == |s|
  {
    if s != [] {
      var t := s[1..];
      DistinctTail(s);
      DistinctSetSize(t);
      assert (set x | x in s) == {s[0]} + (set x | x in t);
    }
  }

  /**
   * A game created from two to ten distinct ids passes the validation service's state
   * consistency check under its default rules.
   */
  lemma NewGameConsistent(gameId: string, playerIds: seq<string>)
    requires Distinct(playerIds) && 2 <= |playerIds| <= 10
    ensures V.ValidateGameStateConsistency(V.DefaultRules, View(NewContext(gameId, playerIds))).isValid
  {
    NewPlayerCount(playerIds);
    assert NewContext(gameId, playerIds).players == NewContext("", playerIds).players;
  }

  /** Repeated ids pass the count check on the list but collapse into one player. */
  lemma RepeatedIdsCollapse()
    ensures |NewContext("g", ["p", "p"]).players| == 1
  {
    assert NewContext("g", ["p", "p"]).players.Keys == {"p"};
  }

  /** How `start_new_hand` and `execute_player_action` report an exception of the state machine. */
  function Translate(e: Raised, fallback: string): (r: CommandResult)
    ensures r != Success
    ensures e.RaisedOther? <==> r == Failed(fallback)
  {
    match e
    case RaisedValidation(code) => ValidationFailed(code)
    case RaisedBusinessRule(code) => RuleViolated(code)
    case RaisedOther => Failed(fallback)
  }

  /**
   * The checks `execute_player_action` makes before handing the action to the state
   * machine: the game exists, the player is in it, the type is known and a raise or all-in
   * stakes something. None when all pass.
   */
  function ActionPreCheck(sessions: map<string, Session>, gameId: string, playerId: string, a: PlayerAction): (r: Option<CommandResult>)
    ensures r == Some(ValidationFailed("GAME_NOT_FOUND")) <==> gameId !in sessions
    ensures r.None? <==>
      gameId in sessions && playerId in sessions[gameId].context.players
      && a.actionType in V.ValidActions && !((a.actionType == "raise" || a.actionType == "all_in") && a.amount <= 0)
  {
    if gameId !in sessions then Some(ValidationFailed("GAME_NOT_FOUND"))
    else if playerId !in sessions[gameId].context.players then Some(ValidationFailed("PLAYER_NOT_IN_GAME"))
    else if a.actionType !in ["fold", "call", "raise", "check", "all_in"] then Some(ValidationFailed("INVALID_ACTION_TYPE"))
    else if (a.actionType == "raise" || a.actionType == "all_in") && a.amount <= 0 then Some(ValidationFailed("INVALID_BET_AMOUNT"))
    else None
  }

  /**
   * For a player in an existing game, the command rejects the type or the amount exactly
   * when the validation service's action-type rules report an unknown type or a
   * non-positive raise.
   */
  lemma PreCheckMatchesValidation(sessions: map<string, Session>, gameId: string, playerId: string, a: PlayerAction, chips: int, currentBet: int)
    requires gameId in sessions && playerId in sessions[gameId].context.players
    ensures ActionPreCheck(sessions, gameId, playerId, a).Some? <==>
      V.ValidActionType in V.ActionTypeErrors(a.actionType, a.amount, chips, currentBet)
      || V.RaiseAmountPositive in V.ActionTypeErrors(a.actionType, a.amount, chips, currentBet)
  {
  }

  /** `list(d)` after `del d[id]`: the remaining ids, in their order. */
  function Without(order: seq<string>, id: string): (r: seq<string>)
    ensures forall x :: x in r <==> x in order && x != id
    ensures Distinct(order) ==> Distinct(r)
    ensures |r| <= |order|
  {
    if order == [] then []
    else
      var rest := Without(order[1..], id);
      assert order == [order[0]] + order[1..];
      assert Distinct(order) && order[0] != id ==> Distinct([order[0]] + rest) by {
        if Distinct(order) {
          DistinctTail(order);
          if order[0] != id {
            DistinctCons(order[0], rest);
          }
        }
      }
      assert Distinct(order) ==> Distinct(rest) by {
        if Distinct(order) {
          DistinctTail(order);
        }
      }
      if order[0] == id then rest else [order[0]] + rest
  }

  class GameCommandService {
    /** `_sessions`, a dictionary: its values, and its keys in insertion order. */
    var sessions: map<string, Session>
    var order: seq<string>
    var enableInvariantChecks: bool

    ghost predicate Valid()
      reads this
    {
      Distinct(order) && forall id :: id in order <==> id in sessions
    }

    constructor (enableChecks: bool)
      ensures Valid() && sessions == map[] && order == [] && enableInvariantChecks == enableChecks
    {
      sessions := map[];
      order := [];
      enableInvariantChecks := enableChecks;
    }

    /** Whether `_verify_game_invariants` raises, given the checker's verdict. */
    function Violated(invariantsHold: bool): bool
      reads this
    {
      enableInvariantChecks && !invariantsHold
    }

    /** `_get_session`. */
    function GetSession(gameId: string): (r: Option<Session>)
      reads this
      ensures r.Some? <==> gameId in sessions
      ensures r.Some? ==> r.value == sessions[gameId]
    {
      if gameId in sessions then Some(sessions[gameId]) else None
    }

    /** `get_active_games`: every registered id once, in creation order. */
    function GetActiveGames(): (ids: seq<string>)
      reads this
      requires Valid()
      ensures Distinct(ids) && forall id :: id in ids <==> id in sessions
    {
      order
    }

    /**
     * `create_new_game`. The id is the given one or, when none is given, `generatedId`; the
     * ids default to two players. A taken id or a list of fewer than two or more than ten
     * ids changes nothing. A game the invariant checker rejects is removed again.
     */
    method CreateNewGame(gameId: Option<string>, playerIds: Option<seq<string>>, generatedId: string, invariantsHold: bool)
      returns (r: CommandResult, id: string)
      requires Valid()
      modifies this
      ensures Valid() && enableInvariantChecks == old(enableInvariantChecks)
      ensures id == (if gameId.Some? then gameId.value else generatedId)
      ensures var ids := if playerIds.Some? then playerIds.value else DefaultPlayerIds;
        if id in old(sessions) then
          r == ValidationFailed("GAME_ALREADY_EXISTS") && sessions == old(sessions) && order == old(order)
        else if |ids| < 2 || |ids| > 10 then
          r == ValidationFailed("INVALID_PLAYER_COUNT") && sessions == old(sessions) && order == old(order)
        else if Violated(invariantsHold) then
          r == Failed("INVARIANT_VIOLATION") && sessions == old(sessions) && order == old(order)
        else
          r == Success && sessions == old(sessions)[id := Session(id, NewContext(id, ids))]
          && order == old(order) + [id]
    {
      id := if gameId.Some? then gameId.value else generatedId;
      if id in sessions {
        return ValidationFailed("GAME_ALREADY_EXISTS"), id;
      }
      var ids := if playerIds.Some? then playerIds.value else DefaultPlayerIds;
      if |ids| < 2 || |ids| > 10 {
        return ValidationFailed("INVALID_PLAYER_COUNT"), id;
      }
      var before, beforeOrder := sessions, order;
      sessions := sessions[id := Session(id, NewContext(id, ids))];
      order := order + [id];
      if Violated(invariantsHold) {
        sessions := sessions - {id};
        order := Without(order, id);
        assert sessions == before;
        assert order == beforeOrder by {
          WithoutLast(beforeOrder, id);
        }
        return Failed("INVARIANT_VIOLATION"), id;
      }
      r := Success;
    }

    /**
     * `start_new_hand`: only from INIT or FINISHED. The state machine's new context is kept
     * even when the invariant checker then rejects it.
     */
    method StartNewHand(gameId: string, machine: MachineOutcome, invariantsHold: bool) returns (r: CommandResult)
      requires Valid()
      modifies this
      ensures Valid() && order == old(order) && enableInvariantChecks == old(enableInvariantChecks)
      ensures gameId !in old(sessions) ==> r == ValidationFailed("GAME_NOT_FOUND") && sessions == old(sessions)
      ensures gameId in old(sessions) && old(sessions)[gameId].context.phase !in {Init, Finished} ==>
        r == RuleViolated("INVALID_PHASE_FOR_NEW_HAND") && sessions == old(sessions)
      ensures gameId in old(sessions) && old(sessions)[gameId].context.phase in {Init, Finished} ==>
        match machine
        case Threw(e) => r == Translate(e, "START_HAND_FAILED") && sessions == old(sessions)
        case Moved(c) =>
          sessions == old(sessions)[gameId := old(sessions)[gameId].(context := c)]
          && r == (if Violated(invariantsHold) then Failed("INVARIANT_VIOLATION") else Success)
    {
      if gameId !in sessions {
        return ValidationFailed("GAME_NOT_FOUND");
      }
      var session := sessions[gameId];
      if session.context.phase !in {Init, Finished} {
        return RuleViolated("INVALID_PHASE_FOR_NEW_HAND");
      }
      match machine {
        case Threw(e) =>
          return Translate(e, "START_HAND_FAILED");
        case Moved(c) =>
          sessions := sessions[gameId := session.(context := c)];
      }
      r := if Violated(invariantsHold) then Failed("INVARIANT_VIOLATION") else Success;
    }

    /** `execute_player_action`: the pre-checks, then the state machine, then the invariant check. */
    method ExecutePlayerAction(gameId: string, playerId: string, a: PlayerAction, machine: MachineOutcome, invariantsHold: bool)
      returns (r: CommandResult)
      requires Valid()
      modifies this
      ensures Valid() && order == old(order) && enableInvariantChecks == old(enableInvariantChecks)
      ensures ActionPreCheck(old(sessions), gameId, playerId, a).Some? ==>
        r == ActionPreCheck(old(sessions), gameId, playerId, a).value && sessions == old(sessions)
      ensures ActionPreCheck(old(sessions), gameId, playerId, a).None? ==>
        match machine
        case Threw(e) => r == Translate(e, "PLAYER_ACTION_FAILED") && sessions == old(sessions)
        case Moved(c) =>
          sessions == old(sessions)[gameId := old(sessions)[gameId].(context := c)]
          && r == (if Violated(invariantsHold) then Failed("INVARIANT_VIOLATION") else Success)
    {
      var rejected := ActionPreCheck(sessions, gameId, playerId, a);
      if rejected.Some? {
        return rejected.value;
      }
      match machine {
        case Threw(e) =>
          return Translate(e, "PLAYER_ACTION_FAILED");
        case Moved(c) =>
          sessions := sessions[gameId := sessions[gameId].(context := c)];
      }
      r := if Violated(invariantsHold) then Failed("INVARIANT_VIOLATION") else Success;
    }

    /** `advance_phase`: any exception of the state machine becomes ADVANCE_PHASE_FAILED. */
    method AdvancePhase(gameId: string, machine: MachineOutcome, invariantsHold: bool) returns (r: CommandResult)
      requires Valid()
      modifies this
      ensures Valid() && order == old(order) && enableInvariantChecks == old(enableInvariantChecks)
      ensures gameId !in old(sessions) ==> r == ValidationFailed("GAME_NOT_FOUND") && sessions == old(sessions)
      ensures gameId in old(sessions) ==>
        match machine
        case Threw(_) => r == Failed("ADVANCE_PHASE_FAILED") && sessions == old(sessions)
        case Moved(c) =>
          sessions == old(sessions)[gameId := old(sessions)[gameId].(context := c)]
          && r == (if Violated(invariantsHold) then Failed("INVARIANT_VIOLATION") else Success)
    {
      if gameId !in sessions {
        return ValidationFailed("GAME_NOT_FOUND");
      }
      match machine {
        case Threw(_) =>
          return Failed("ADVANCE_PHASE_FAILED");
        case Moved(c) =>
          sessions := sessions[gameId := sessions[gameId].(context := c)];
      }
      r := if Violated(invariantsHold) then Failed("INVARIANT_VIOLATION") else Success;
    }

    /** `remove_game`: an unknown id changes nothing; otherwise the id leaves the registry and the list. */
    method RemoveGame(gameId: string) returns (r: CommandResult)
      requires Valid()
      modifies this
      ensures Valid() && enableInvariantChecks == old(enableInvariantChecks)
      ensures gameId !in old(sessions) ==>
        r == ValidationFailed("GAME_NOT_FOUND") && sessions == old(sessions) && order == old(order)
      ensures gameId in old(sessions) ==>
        r == Success && sessions == old(sessions) - {gameId} && order == Without(old(order), gameId)
      ensures gameId !in GetActiveGames()
    {
      if gameId !in sessions {
        return ValidationFailed("GAME_NOT_FOUND");
      }
      sessions := sessions - {gameId};
      order := Without(order, gameId);
      r := Success;
    }
  }

  /** Removing the id just appended gives back the list before it. */
  lemma {:induction false} WithoutLast(order: seq<string>, id: string)
    requires id !in order
    ensures Without(order + [id], id) == order
  {
    if order != [] {
      assert (order + [id])[1..] == order[1..] + [id];
      WithoutLast(order[1..], id);
      assert order == [order[0]] + order[1..];
    } else {
      assert ([] + [id])[1..] == [];
    }
  }
}
