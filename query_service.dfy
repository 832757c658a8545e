/**
 * The v3 query service: read-only views of the command service's sessions — the state of a
 * game, a player, the actions a player may take, the phase that comes next, whether the
 * game is over and who won — and the history of a game's events.
 *
 * The service reaches the sessions through a command service that may be missing; that is
 * the `Option` around the session map.
 */
module Queries {
  import opened Common
  import opened Phases
  import V = Validation
  import opened Commands

  const NotInitialized := "COMMAND_SERVICE_NOT_INITIALIZED"
  const GameNotFound := "GAME_NOT_FOUND"
  const PlayerNotInGame := "PLAYER_NOT_IN_GAME"

  /** The session of `gameId`, or the error code a query reports when there is none. */
  function SessionOf(registry: Option<map<string, Session>>, gameId: string): (r: Result<Session, string>)
    ensures r.Err? <==> registry.None? || gameId !in registry.value
    ensures r.Err? ==> r.error == (if registry.None? then NotInitialized else GameNotFound)
    ensures r.Ok? ==> r.value == registry.value[gameId]
  {
    if registry.None? then Err(NotInitialized)
    else if gameId !in registry.value then Err(GameNotFound)
    else Ok(registry.value[gameId])
  }

  // ---------------------------------------------------------------- state and players

  datatype GameStateSnapshot = GameStateSnapshot(
    gameId: string,
    currentPhase: string,
    players: map<string, V.PlayerData>,
    communityCards: seq<Card>,
    potTotal: int,
    currentBet: int,
    activePlayerId: Option<string>)

  /** `get_game_state`: a copy of the session's context, with the phase by name. */
  function GetGameState(registry: Option<map<string, Session>>, gameId: string): (r: Result<GameStateSnapshot, string>)
    ensures r.Err? <==> SessionOf(registry, gameId).Err?
    ensures r.Err? ==> r.error == SessionOf(registry, gameId).error
    ensures r.Ok? ==>
      var c := registry.value[gameId].context;
      r.value.currentPhase == Name(c.phase) && r.value.players == c.players && r.value.potTotal == c.potTotal
      && r.value.currentBet == c.currentBet && r.value.communityCards == c.communityCards
  {
    match SessionOf(registry, gameId)
    case Err(e) => Err(e)
    case Ok(s) =>
      var c := s.context;
      Ok(GameStateSnapshot(c.gameId, Name(c.phase), c.players, c.communityCards, c.potTotal, c.currentBet, c.activePlayerId))
  }

  datatype PlayerInfo = PlayerInfo(playerId: string, chips: int, active: bool, currentBet: int)

  /** `get_player_info`. */
  function GetPlayerInfo(registry: Option<map<string, Session>>, gameId: string, playerId: string): (r: Result<PlayerInfo, string>)
    ensures r.Err? <==> SessionOf(registry, gameId).Err? || playerId !in registry.value[gameId].context.players
    ensures r.Err? && SessionOf(registry, gameId).Ok? ==> r.error == PlayerNotInGame
    ensures r.Ok? ==>
      var p := registry.value[gameId].context.players[playerId];
      r.value == PlayerInfo(playerId, p.chips, p.active, p.currentBet)
  {
    match SessionOf(registry, gameId)
    case Err(e) => Err(e)
    case Ok(s) =>
      if playerId !in s.context.players then Err(PlayerNotInGame)
      else
        var p := s.context.players[playerId];
        Ok(PlayerInfo(playerId, p.chips, p.active, p.currentBet))
  }

  // ---------------------------------------------------------------- available actions

  datatype AvailableActions = AvailableActions(playerId: string, actions: seq<string>, minBet: int, maxBet: int)

  const BettingPhases: set<Phase> := {PreFlop, Flop, Turn, River}

  /** The minimum raise increment: the context's `big_blind_amount`, 20 when it has none. */
  function MinRaise(c: Context): int {
    if c.bigBlindAmount.Some? then c.bigBlindAmount.value else 20
  }

  /** What the player still owes to match the current bet. */
  function CallAmount(c: Context, p: V.PlayerData): int {
    if c.currentBet - p.currentBet > 0 then c.currentBet - p.currentBet else 0
  }

  /**
   * The list `_determine_available_actions` builds for a player who may act: fold first,
   * then check (and raise with chips) when nobody has bet, or call (and raise when the stack
   * covers the call plus a minimum raise) when the stack covers the call, and all-in with
   * any chips.
   */
  function OpenActions(currentBet: int, chips: int, call: int, minRaise: int): (r: seq<string>)
    ensures |r| > 0 && r[0] == "fold"
    ensures "check" in r <==> currentBet == 0
    ensures "call" in r <==> currentBet != 0 && chips >= call
    ensures "raise" in r <==>
      (if currentBet == 0 then chips > 0 else chips >= call && chips > call + minRaise)
    ensures "all_in" in r <==> chips > 0
    ensures forall k :: 0 <= k < |r| ==> r[k] in V.ValidActions
    ensures Distinct(r)
  {
    var middle := Responses(currentBet, chips, call, minRaise);
    var last := if chips > 0 then ["all_in"] else [];
    DistinctCons("fold", middle + last);
    ["fold"] + (middle + last)
  }

  /** The part of the list between fold and all-in: the answers to the current bet. */
  function Responses(currentBet: int, chips: int, call: int, minRaise: int): (r: seq<string>)
    ensures "check" in r <==> currentBet == 0
    ensures "call" in r <==> currentBet != 0 && chips >= call
    ensures "raise" in r <==>
      (if currentBet == 0 then chips > 0 else chips >= call && chips > call + minRaise)
    ensures "fold" !in r && "all_in" !in r
    ensures forall k :: 0 <= k < |r| ==> r[k] in V.ValidActions
    ensures Distinct(r)
  {
    if currentBet == 0 then ["check"] + (if chips > 0 then ["raise"] else [])
    else if chips >= call then ["call"] + (if chips > call + minRaise then ["raise"] else [])
    else []
  }

  /** `_determine_available_actions`: nothing for an inactive player or outside a betting street. */
  function DetermineAvailableActions(c: Context, playerId: string): (r: AvailableActions)
    requires playerId in c.players
    ensures var p := c.players[playerId];
      r.actions == if p.active && c.phase in BettingPhases then OpenActions(c.currentBet, p.chips, CallAmount(c, p), MinRaise(c)) else []
    ensures r.playerId == playerId && r.minBet == c.currentBet && r.maxBet == c.players[playerId].chips
  {
    var p := c.players[playerId];
    var actions :=
      if !p.active || c.phase !in BettingPhases then []
      else OpenActions(c.currentBet, p.chips, CallAmount(c, p), MinRaise(c));
    AvailableActions(playerId, actions, c.currentBet, p.chips)
  }

  /** The list never offers both check and call. */
  lemma NeverCheckAndCall(c: Context, playerId: string)
    requires playerId in c.players
    ensures !("check" in DetermineAvailableActions(c, playerId).actions && "call" in DetermineAvailableActions(c, playerId).actions)
  {
  }

  /**
   * Each of fold, check, call and an all-in of the whole stack that the list offers passes
   * the validation service's action-type rules.
   */
  lemma OfferedActionsPassTypeRules(c: Context, playerId: string, amount: int)
    requires playerId in c.players
    ensures var a := DetermineAvailableActions(c, playerId).actions;
      var chips := c.players[playerId].chips;
      && ("fold" in a ==> V.ActionTypeErrors("fold", amount, chips, c.currentBet) == [])
      && ("check" in a ==> V.ActionTypeErrors("check", amount, chips, c.currentBet) == [])
      && ("call" in a ==> V.ActionTypeErrors("call", amount, chips, c.currentBet) == [])
      && ("all_in" in a ==> V.ActionTypeErrors("all_in", chips, chips, c.currentBet) == [])
  {
    var chips := c.players[playerId].chips;
    V.ActionTypePasses("fold", amount, chips, c.currentBet);
    V.ActionTypePasses("check", amount, chips, c.currentBet);
    V.ActionTypePasses("call", amount, chips, c.currentBet);
    V.ActionTypePasses("all_in", chips, chips, c.currentBet);
  }

  /** `get_available_actions`: the lookups, then the list. */
  function GetAvailableActions(registry: Option<map<string, Session>>, gameId: string, playerId: string): (r: Result<AvailableActions, string>)
    ensures r.Err? <==> GetPlayerInfo(registry, gameId, playerId).Err?
    ensures r.Err? ==> r.error == GetPlayerInfo(registry, gameId, playerId).error
    ensures r.Ok? ==> r.value == DetermineAvailableActions(registry.value[gameId].context, playerId)
  {
    match SessionOf(registry, gameId)
    case Err(e) => Err(e)
    case Ok(s) =>
      if playerId !in s.context.players then Err(PlayerNotInGame)
      else Ok(DetermineAvailableActions(s.context, playerId))
  }

  /** `get_game_list`: the command service's active games. */
  function GetGameList(activeGames: Option<seq<string>>): (r: Result<seq<string>, string>)
    ensures r.Err? <==> activeGames.None?
    ensures r.Err? ==> r.error == NotInitialized
    ensures r.Ok? ==> r.value == activeGames.value
  {
    if activeGames.None? then Err(NotInitialized) else Ok(activeGames.value)
  }

  // ---------------------------------------------------------------- phases

  /** `_get_next_phase`: the next phase of INIT, PRE_FLOP, ..., FINISHED by name; None after FINISHED. */
  function NextPhase(p: Phase): (r: Option<string>)
    ensures r.None? <==> p == Finished
  {
    match p
    case Init => Some(Name(PreFlop))
    case PreFlop => Some(Name(Flop))
    case Flop => Some(Name(Turn))
    case Turn => Some(Name(River))
    case River => Some(Name(Showdown))
    case Showdown => Some(Name(Finished))
    case Finished => None
  }

  /**
   * The phase named next is the one a step further along the hand, and the validation
   * service accepts the transition to it.
   */
  lemma NextPhaseIsAccepted(p: Phase)
    requires p != Finished
    ensures exists q :: NextPhase(p) == Some(Name(q)) && V.Step(q) == V.Step(p) + 1
    ensures V.ValidatePhaseTransition(Name(p), NextPhase(p).value).isValid
  {
    var q :| NextPhase(p) == Some(Name(q)) && V.Step(q) == V.Step(p) + 1 by {
      match p
      case Init => assert NextPhase(p) == Some(Name(PreFlop));
      case PreFlop => assert NextPhase(p) == Some(Name(Flop));
      case Flop => assert NextPhase(p) == Some(Name(Turn));
      case Turn => assert NextPhase(p) == Some(Name(River));
      case River => assert NextPhase(p) == Some(Name(Showdown));
      case Showdown => assert NextPhase(p) == Some(Name(Finished));
    }
    V.PhaseTransitionsByPhase(p, q);
  }

  /** `_can_advance_phase`: at least two active players. */
  function CanAdvancePhase(c: Context): (r: bool)
    ensures r <==> |V.ActiveIds(c.players)| >= 2
  {
    |V.ActiveIds(c.players)| >= 2
  }

  datatype PhaseInfo = PhaseInfo(currentPhase: string, canAdvance: bool, nextPhase: Option<string>)

  /** `get_phase_info`. */
  function GetPhaseInfo(registry: Option<map<string, Session>>, gameId: string): (r: Result<PhaseInfo, string>)
    ensures r.Err? <==> SessionOf(registry, gameId).Err?
    ensures r.Err? ==> r.error == SessionOf(registry, gameId).error
    ensures r.Ok? ==>
      var c := registry.value[gameId].context;
      r.value.currentPhase == Name(c.phase) && (r.value.nextPhase.None? <==> c.phase == Finished)
      && (r.value.canAdvance <==> |V.ActiveIds(c.players)| >= 2)
  {
    match SessionOf(registry, gameId)
    case Err(e) => Err(e)
    case Ok(s) => Ok(PhaseInfo(Name(s.context.phase), CanAdvancePhase(s.context), NextPhase(s.context.phase)))
  }

  // ---------------------------------------------------------------- end of the game

  /** The players who still hold chips. */
  function ChipHolders(players: map<string, V.PlayerData>): (r: set<string>)
    ensures forall id :: id in r <==> id in players && players[id].chips > 0
  {
    set id | id in players && players[id].chips > 0
  }

  /** `is_game_over`: fewer than two players still hold chips. */
  function IsGameOver(registry: Option<map<string, Session>>, gameId: string): (r: Result<bool, string>)
    ensures r.Err? <==> SessionOf(registry, gameId).Err?
    ensures r.Err? ==> r.error == SessionOf(registry, gameId).error
    ensures r.Ok? ==> (r.value <==> |ChipHolders(registry.value[gameId].context.players)| < 2)
  {
    match SessionOf(registry, gameId)
    case Err(e) => Err(e)
    case Ok(s) => Ok(|ChipHolders(s.context.players)| < 2)
  }

  /** A set of one element holds nothing else. */
  lemma SingletonHoldsOne(s: set<string>, a: string, b: string)
    requires |s| == 1 && a in s && b in s
    ensures a == b
  {
    var rest := s - {a};
    assert |rest| == 0;
    assert b !in rest;
  }

  /**
   * `get_game_winner`: None while the game is not over; once it is, the one player who
   * still holds chips, or None when nobody does.
   */
  function GetGameWinner(registry: Option<map<string, Session>>, gameId: string): (r: Result<Option<string>, string>)
    ensures r.Err? <==> SessionOf(registry, gameId).Err?
    ensures r.Err? ==> r.error == SessionOf(registry, gameId).error
    ensures r.Ok? ==> (r.value.Some? <==> |ChipHolders(registry.value[gameId].context.players)| == 1)
    ensures r.Ok? && r.value.Some? ==> ChipHolders(registry.value[gameId].context.players) == {r.value.value}
  {
    match IsGameOver(registry, gameId)
    case Err(e) => Err(e)
    case Ok(over) =>
      if !over then Ok(None)
      else
        var holders := ChipHolders(registry.value[gameId].context.players);
        if |holders| == 1 then
          assert forall x, y | x in holders && y in holders :: x == y by {
            forall x, y | x in holders && y in holders ensures x == y {
              SingletonHoldsOne(holders, x, y);
            }
          }
          var w :| w in holders;
          Ok(Some(w))
        else Ok(None)
  }

  /** A winner is named exactly when the game is over with a single player holding chips. */
  lemma WinnerIffLastStanding(registry: Option<map<string, Session>>, gameId: string, w: string)
    requires SessionOf(registry, gameId).Ok?
    ensures GetGameWinner(registry, gameId) == Ok(Some(w)) <==>
      IsGameOver(registry, gameId) == Ok(true) && ChipHolders(registry.value[gameId].context.players) == {w}
  {
    var holders := ChipHolders(registry.value[gameId].context.players);
    if holders == {w} {
      assert |holders| == 1;
    }
  }

  // ---------------------------------------------------------------- history

  /** A published domain event; its timestamp is a number of time units. */
  datatype DomainEvent = DomainEvent(eventId: string, eventType: string, timestamp: int, aggregateId: string)

  function NegTime(e: DomainEvent): int { -e.timestamp }

  /** `xs[:limit]`: a negative limit drops that many from the end. */
  function PrefixLength(n: nat, limit: int): (k: nat)
    ensures k <= n
    ensures limit >= 0 ==> k == Min(limit, n)
    ensures limit < 0 ==> k == (if n + limit > 0 then n + limit else 0)
  {
    if limit >= 0 then (if limit < n then limit else n)
    else if n + limit > 0 then n + limit else 0
  }

  /** The game's events, newest first; equal timestamps keep the order they were published in. */
  function GameEventsNewestFirst(history: seq<DomainEvent>, gameId: string): seq<DomainEvent> {
    SortBy(Filter(history, (e: DomainEvent) => e.aggregateId == gameId), NegTime)
  }

  /** `get_game_history`: the game's events, newest first, cut at `limit`. */
  function GetGameHistory(history: seq<DomainEvent>, gameId: string, limit: int): (r: seq<DomainEvent>)
    ensures |r| == PrefixLength(CountIf(history, (e: DomainEvent) => e.aggregateId == gameId), limit)
    ensures forall k :: 0 <= k < |r| ==> r[k].aggregateId == gameId && r[k] in history
    ensures forall i, j :: 0 <= i < j < |r| ==> r[i].timestamp >= r[j].timestamp
  {
    var matching := (e: DomainEvent) => e.aggregateId == gameId;
    var sorted := GameEventsNewestFirst(history, gameId);
    SortByFacts(Filter(history, matching), NegTime);
    FilterMembers(history, matching);
    SortByMembers(Filter(history, matching), NegTime);
    var k := PrefixLength(|sorted|, limit);
    sorted[..k]
  }

  /**
   * Nothing newer is left out: the returned events and the ones cut off together are the
   * game's events, and every returned event is at least as new as every one cut off.
   */
  lemma HistoryKeepsNewest(history: seq<DomainEvent>, gameId: string, limit: int)
    ensures var r := GetGameHistory(history, gameId, limit);
      var sorted := GameEventsNewestFirst(history, gameId);
      var dropped := sorted[|r|..];
      && multiset(r) + multiset(dropped) == multiset(Filter(history, (e: DomainEvent) => e.aggregateId == gameId))
      && (forall i, j :: 0 <= i < |r| && 0 <= j < |dropped| ==> r[i].timestamp >= dropped[j].timestamp)
  {
    var matching := (e: DomainEvent) => e.aggregateId == gameId;
    var sorted := GameEventsNewestFirst(history, gameId);
    SortByFacts(Filter(history, matching), NegTime);
    var r := GetGameHistory(history, gameId, limit);
    assert r == sorted[..|r|];
    assert sorted == r + sorted[|r|..];
    forall i, j | 0 <= i < |r| && 0 <= j < |sorted| - |r|
      ensures r[i].timestamp >= sorted[|r|..][j].timestamp
    {
      assert sorted[|r|..][j] == sorted[|r| + j];
      assert NegTime(sorted[i]) <= NegTime(sorted[|r| + j]);
    }
  }
}
