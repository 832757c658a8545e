/**
 * The second engine's hand controller (`PokerController` of the v2 controller): starting a
 * hand, posting blinds and choosing the first player by list position, applying an action to
 * the table state, passing the turn, and closing a street. Positions here are indices into the
 * player list, not seat ids.
 */
module V2Controller {
  import opened Common
  import opened Players
  import opened Phases
  import AV = ActionValidation
  import V2State
  import Seating
  import Core = CoreGameState

  datatype ControllerError =
    | HandInProgress
    | UnknownSeat
    | Refused(reason: PlayerError)
    | DealFailed(cause: V2State.StateError)

  /** What `end_hand` reports: no winners are decided yet, and the pot as it stands. */
  datatype HandResult = HandResult(winnerIds: seq<nat>, potAmount: int)

  // ---------------------------------------------------------------------------------------
  // Positions by list index

  function SmallBlindIndex(n: nat, dealer: nat): nat
    requires n > 0
  {
    (dealer + 1) % n
  }

  function BigBlindIndex(n: nat, dealer: nat): nat
    requires n > 0
  {
    (dealer + 2) % n
  }

  /** `_set_first_player`: heads-up the player after the dealer, otherwise the third after. */
  function FirstPlayerIndex(n: nat, dealer: nat): nat
    requires n > 0
  {
    if n < 3 then (dealer + 1) % n else (dealer + 3) % n
  }

  /**
   * Heads-up, the dealer's own index posts the big blind, and the other player posts the small
   * blind and acts first.
   */
  lemma HeadsUpPositions(dealer: nat)
    requires dealer < 2
    ensures BigBlindIndex(2, dealer) == dealer
    ensures SmallBlindIndex(2, dealer) == 1 - dealer
    ensures FirstPlayerIndex(2, dealer) == SmallBlindIndex(2, dealer)
  {
  }

  /**
   * With two or more players the two blinds are different players; with three or more the
   * first to act is the player right after the big blind.
   */
  lemma RingPositions(n: nat, dealer: nat)
    requires n >= 2
    ensures SmallBlindIndex(n, dealer) != BigBlindIndex(n, dealer)
    ensures n >= 3 ==> FirstPlayerIndex(n, dealer) == (BigBlindIndex(n, dealer) + 1) % n
  {
    var d := dealer % n;
    ModAddLeft(dealer, 1, n);
    ModAddLeft(dealer, 2, n);
    Seating.ModOnce(d + 1, n);
    Seating.ModOnce(d + 2, n);
    ModAddLeft(dealer + 2, 1, n);
  }

  // ---------------------------------------------------------------------------------------
  // Blinds

  /**
   * One blind of `_post_blinds`: the player at index `i` bets `amount` and takes the blind's
   * flag, but only when its chips cover the amount; otherwise nothing happens.
   */
  function PostBlindAt(ps: seq<Player>, i: nat, amount: int, small: bool): (r: Result<seq<Player>, PlayerError>)
    requires i < |ps|
    ensures ps[i].chips < amount ==> r == Ok(ps)
    ensures r.Err? <==> ps[i].chips >= amount && (amount < 0 || !CanAct(ps[i]))
    ensures r.Ok? ==> |r.value| == |ps| && forall k :: 0 <= k < |ps| && k != i ==> r.value[k] == ps[k]
    ensures r.Ok? ==> r.value[i].seat == ps[i].seat && r.value[i].holeCards == ps[i].holeCards
    ensures r.Ok? ==> Stack(r.value[i]) == Stack(ps[i])
    ensures r.Ok? && ps[i].chips >= amount ==>
      && r.value[i].chips == ps[i].chips - amount
      && r.value[i].currentBet == ps[i].currentBet + amount
      && (if small then r.value[i].isSmallBlind else r.value[i].isBigBlind)
  {
    if ps[i].chips >= amount then
      match Bet(ps[i], amount)
      case Err(e) => Err(e)
      case Ok((q, _)) => Ok(ps[i := if small then q.(isSmallBlind := true) else q.(isBigBlind := true)])
    else Ok(ps)
  }

  /**
   * `_post_blinds` on a list of at least two players: the small blind at index dealer+1, then
   * the big blind at dealer+2. Also says whether the big blind was posted, which is when the
   * standing bet becomes the big blind.
   */
  function PostedBlinds(ps: seq<Player>, dealer: nat, sb: int, bb: int): (r: Result<(seq<Player>, bool), PlayerError>)
    requires |ps| >= 2
    ensures r.Ok? ==> r.value.1 == (ps[BigBlindIndex(|ps|, dealer)].chips >= bb)
    ensures r.Ok? ==> SameSeats(ps, r.value.0)
    ensures r.Ok? ==> forall k :: 0 <= k < |ps| ==> r.value.0[k].holeCards == ps[k].holeCards
    ensures r.Ok? ==> TotalChips(r.value.0) + TotalBets(r.value.0) == TotalChips(ps) + TotalBets(ps)
  {
    RingPositions(|ps|, dealer);
    var si, bi := SmallBlindIndex(|ps|, dealer), BigBlindIndex(|ps|, dealer);
    match PostBlindAt(ps, si, sb, true)
    case Err(e) => Err(e)
    case Ok(ps1) =>
      ChipsAndBetsAfterUpdate(ps, si, ps1[si]);
      assert ps1 == ps[si := ps1[si]];
      match PostBlindAt(ps1, bi, bb, false)
      case Err(e) => Err(e)
      case Ok(ps2) =>
        ChipsAndBetsAfterUpdate(ps1, bi, ps2[bi]);
        assert ps2 == ps1[bi := ps2[bi]];
        Ok((ps2, ps1[bi].chips >= bb))
  }

  /**
   * Who pays what: the small-blind player pays the small blind exactly when it can afford it,
   * the big-blind player likewise, and nobody else's chips or bet move.
   */
  lemma BlindPayments(ps: seq<Player>, dealer: nat, sb: int, bb: int)
    requires |ps| >= 2 && sb >= 0 && bb >= 0 && PostedBlinds(ps, dealer, sb, bb).Ok?
    ensures var (qs, _) := PostedBlinds(ps, dealer, sb, bb).value;
      var si, bi := SmallBlindIndex(|ps|, dealer), BigBlindIndex(|ps|, dealer);
      && qs[si].currentBet == ps[si].currentBet + (if ps[si].chips >= sb then sb else 0)
      && qs[bi].currentBet == ps[bi].currentBet + (if ps[bi].chips >= bb then bb else 0)
      && (ps[si].chips >= sb ==> qs[si].isSmallBlind)
      && (ps[bi].chips >= bb ==> qs[bi].isBigBlind)
      && forall k :: 0 <= k < |ps| && k != si && k != bi ==> qs[k] == ps[k]
  {
    RingPositions(|ps|, dealer);
  }

  // ---------------------------------------------------------------------------------------
  // Passing the turn

  /** The index `d` places after `start` in the list, wrapping. */
  function Ahead(n: nat, start: nat, d: nat): nat
    requires n > 0
  {
    (start + d) % n
  }

  /** The loop of `_advance_to_next_player` from distance `d` on: the first distance up to `n` landing on an ACTIVE player. */
  function SearchActive(ps: seq<Player>, start: nat, d: nat): (r: Option<nat>)
    requires |ps| > 0 && d >= 1
    decreases |ps| + 1 - d
    ensures r.Some? ==> d <= r.value <= |ps| && IsActive(ps[Ahead(|ps|, start, r.value)])
    ensures r.Some? ==> forall e :: d <= e < r.value ==> !IsActive(ps[Ahead(|ps|, start, e)])
    ensures r.None? ==> forall e :: d <= e <= |ps| ==> !IsActive(ps[Ahead(|ps|, start, e)])
  {
    if d > |ps| then None
    else if IsActive(ps[Ahead(|ps|, start, d)]) then Some(d)
    else SearchActive(ps, start, d + 1)
  }

  /** Distances 1 to n from any start reach every index. */
  lemma AheadCovers(n: nat, start: nat, k: nat) returns (e: nat)
    requires 0 < n && k < n
    ensures 1 <= e <= n && Ahead(n, start, e) == k
  {
    var q, m := (k - start) / n, (k - start) % n;
    e := if m == 0 then n else m;
    ModUnique(start + e, (if m == 0 then 1 else 0) - q, k, n);
  }

  lemma NoneActive(ps: seq<Player>, start: nat)
    requires |ps| > 0 && SearchActive(ps, start, 1).None?
    ensures forall k :: 0 <= k < |ps| ==> !IsActive(ps[k])
  {
    forall k | 0 <= k < |ps| ensures !IsActive(ps[k]) {
      var e := AheadCovers(|ps|, start, k);
    }
  }

  /**
   * The index the turn passes to from `start`: the first ACTIVE player after it, wrapping
   * round and ending with `start` itself; None when nobody is ACTIVE.
   */
  function NextActiveIndex(ps: seq<Player>, start: nat): (r: Option<nat>)
    ensures r.Some? ==> r.value < |ps| && IsActive(ps[r.value])
    ensures r.None? <==> forall k :: 0 <= k < |ps| ==> !IsActive(ps[k])
    ensures r.Some? ==>
      exists d :: 1 <= d <= |ps| && r.value == Ahead(|ps|, start, d)
                  && forall e :: 1 <= e < d ==> !IsActive(ps[Ahead(|ps|, start, e)])
  {
    if |ps| == 0 then None
    else match SearchActive(ps, start, 1)
      case None => NoneActive(ps, start); None
      case Some(d) => Some(Ahead(|ps|, start, d))
  }

  /** The loop `_advance_to_next_player` and `_set_first_player_for_new_round` share. */
  method ScanActive(ps: seq<Player>, start: nat) returns (r: Option<nat>)
    ensures r == NextActiveIndex(ps, start)
  {
    var i := 1;
    while i <= |ps|
      invariant 1 <= i <= |ps| + 1
      invariant |ps| > 0 ==> SearchActive(ps, start, i) == SearchActive(ps, start, 1)
    {
      var next := (start + i) % |ps|;
      if ps[next].status == Active {
        return Some(next);
      }
      i := i + 1;
    }
    return None;
  }

  /** The table after the turn has passed on from the current player, if there is one. */
  function TurnPassed(s: V2State.GameSnapshot): V2State.GameSnapshot {
    s.(currentPlayer := if s.currentPlayer.None? then None else NextActiveIndex(s.players, s.currentPlayer.value))
  }

  // ---------------------------------------------------------------------------------------
  // Actions

  /**
   * `_apply_action` before the turn passes: the acting seat must be at the table; FOLD folds,
   * CHECK does nothing, CALL bets what is owed, BET bets the amount and sets the standing bet
   * to it, RAISE takes the amount as an increment on the standing bet, ALL_IN bets every chip
   * and lifts the standing bet only when it is topped. A bet the player refuses fails.
   */
  function Applied(s: V2State.GameSnapshot, a: AV.Action): (r: Result<V2State.GameSnapshot, ControllerError>)
    ensures IndexOfSeat(s.players, a.seat).None? ==> r == Err(UnknownSeat)
    ensures r.Ok? ==> r.value.pot == s.pot && r.value.communityCards == s.communityCards
  {
    match IndexOfSeat(s.players, a.seat)
    case None => Err(UnknownSeat)
    case Some(i) =>
      var p := s.players[i];
      if a.kind.Fold? then Ok(s.(players := s.players[i := p.(status := Folded)]))
      else if a.kind.Check? then Ok(s)
      else if a.kind.Call? then
        var owed := s.currentBet - p.currentBet;
        if owed > 0 then
          match Bet(p, owed)
          case Err(e) => Err(Refused(e))
          case Ok((q, _)) => Ok(s.(players := s.players[i := q]))
        else Ok(s)
      else if a.kind.Bet? then
        match Bet(p, a.amount)
        case Err(e) => Err(Refused(e))
        case Ok((q, _)) => Ok(s.(players := s.players[i := q], currentBet := a.amount, lastRaiser := Some(a.seat)))
      else if a.kind.Raise? then
        var total := s.currentBet + a.amount;
        match Bet(p, total - p.currentBet)
        case Err(e) => Err(Refused(e))
        case Ok((q, _)) =>
          Ok(s.(players := s.players[i := q], currentBet := total, lastRaiser := Some(a.seat), lastRaiseAmount := a.amount))
      else
        match Bet(p, p.chips)
        case Err(e) => Err(Refused(e))
        case Ok((q, _)) =>
          var q' := q.(status := AllIn);
          if q'.currentBet > s.currentBet then
            Ok(s.(players := s.players[i := q'], currentBet := q'.currentBet, lastRaiser := Some(a.seat)))
          else Ok(s.(players := s.players[i := q']))
  }

  /** An applied action moves chips only between the acting player's stack and bet, and moves no one. */
  lemma AppliedKeepsChips(s: V2State.GameSnapshot, a: AV.Action)
    requires Applied(s, a).Ok?
    ensures var t := Applied(s, a).value;
      && SameSeats(s.players, t.players)
      && TotalChips(t.players) + TotalBets(t.players) == TotalChips(s.players) + TotalBets(s.players)
  {
    var t := Applied(s, a).value;
    var i := IndexOfSeat(s.players, a.seat).value;
    AppliedTouchesActor(s, a, i);
    ChipsAndBetsAfterUpdate(s.players, i, t.players[i]);
  }

  /** Only the acting player's entry changes, and it keeps its seat and its stack. */
  lemma AppliedTouchesActor(s: V2State.GameSnapshot, a: AV.Action, i: nat)
    requires Applied(s, a).Ok? && IndexOfSeat(s.players, a.seat) == Some(i)
    ensures var t := Applied(s, a).value;
      && i < |t.players| == |s.players| && t.players == s.players[i := t.players[i]]
      && t.players[i].seat == s.players[i].seat && Stack(t.players[i]) == Stack(s.players[i])
  {
    if a.kind.Fold? {
    } else if a.kind.Check? {
    } else if a.kind.Call? {
    } else if a.kind.Bet? {
    } else if a.kind.Raise? {
    } else {
    }
  }

  /** A CALL the player can cover leaves its bet matching the standing bet. */
  lemma CallMatches(s: V2State.GameSnapshot, a: AV.Action)
    requires a.kind == AV.Call && Applied(s, a).Ok?
    requires var i := IndexOfSeat(s.players, a.seat).value;
      s.players[i].chips >= s.currentBet - s.players[i].currentBet
    ensures var i := IndexOfSeat(s.players, a.seat).value;
      var t := Applied(s, a).value;
      t.players[i].currentBet >= t.currentBet == s.currentBet
  {
  }

  /** RAISE adds its amount to the standing bet and records the raiser and the increment. */
  lemma RaiseIsIncrement(s: V2State.GameSnapshot, a: AV.Action)
    requires a.kind == AV.Raise && Applied(s, a).Ok?
    ensures var t := Applied(s, a).value;
      t.currentBet == s.currentBet + a.amount && t.lastRaiser == Some(a.seat) && t.lastRaiseAmount == a.amount
  {
  }

  /**
   * ALL_IN empties the player's stack, marks it ALL_IN, and leaves the standing bet at the
   * larger of the old standing bet and the player's new bet.
   */
  lemma AllInTopsUp(s: V2State.GameSnapshot, a: AV.Action)
    requires a.kind == AV.AllIn && Applied(s, a).Ok?
    ensures var i := IndexOfSeat(s.players, a.seat).value;
      var t := Applied(s, a).value;
      && t.players[i].chips == 0 && t.players[i].status == AllIn
      && t.currentBet == (if s.currentBet >= t.players[i].currentBet then s.currentBet else t.players[i].currentBet)
      && (t.currentBet > s.currentBet ==> t.lastRaiser == Some(a.seat))
  {
  }

    // ---------------------------------------------------------------------------------------
  // Streets

  /** `_all_actions_complete`: every ACTIVE player has matched the standing bet. */
  predicate AllMatched(ps: seq<Player>, currentBet: int) {
    forall k :: 0 <= k < |ps| && IsActive(ps[k]) ==> ps[k].currentBet >= currentBet
  }

  /** The phase `_advance_to_next_phase` moves to: one step for PRE_FLOP to RIVER, otherwise none. */
  function StreetAfter(p: Phase): Phase {
    if p in {PreFlop, Flop, Turn, River} then NextInOrder(p) else p
  }

  /** The board cards `_advance_to_next_phase` deals when leaving `p`: the flop, the turn, the river. */
  function CardsDealtAfter(p: Phase): nat {
    match p
    case PreFlop => 3
    case Flop => 1
    case Turn => 1
    case _ => 0
  }

  /**
   * Closing a street keeps the board at the size the phase expects: from PRE_FLOP to RIVER, a
   * board of the expected size grows to the size expected in the next phase.
   */
  lemma StreetKeepsBoardSize(p: Phase)
    requires p in {PreFlop, Flop, Turn, River}
    ensures Core.ExpectedBoard(StreetAfter(p)).value == Core.ExpectedBoard(p).value + CardsDealtAfter(p)
  {
    Core.BoardGrowsByStreet(p);
  }

  /**
   * `deal_community_cards(count)` on a board and a deck, for the count a street deals: no
   * count changes nothing; without a deck it raises; otherwise a card is burnt and `count`
   * go to the board, and a deck that runs out raises with what it held dealt and left empty.
   * The result is the board, the deck and the error.
   */
  function CommunityDealt(board: seq<Card>, deck: Option<seq<Card>>, count: nat)
    : (seq<Card>, Option<seq<Card>>, Option<V2State.StateError>)
  {
    if count == 0 then (board, deck, None)
    else if deck.None? then (board, deck, Some(V2State.DeckMissing))
    else if |deck.value| >= count + 1 then (board + deck.value[1..count + 1], Some(deck.value[count + 1..]), None)
    else (board + (if deck.value == [] then [] else deck.value[1..]), Some([]), Some(V2State.NotEnoughCards))
  }

  /**
   * `_advance_to_next_phase` from table `s` with deck `deck` to table `t` with deck `rest`:
   * the bets go to the pot, the phase steps on and its board cards are dealt, a failed deal
   * raising with the state as it then stands; short of SHOWDOWN the street's bookkeeping and
   * bets are cleared and the first ACTIVE player after the dealer's index is to act.
   */
  predicate PhaseAdvanced(s: V2State.GameSnapshot, deck: Option<seq<Card>>, err: Option<V2State.StateError>,
                          t: V2State.GameSnapshot, rest: Option<seq<Card>>)
  {
    var dealt := CommunityDealt(s.communityCards, deck, CardsDealtAfter(s.phase));
    var stepped := s.(pot := s.pot + TotalBets(s.players), players := ResetBets(s.players),
                      phase := StreetAfter(s.phase), communityCards := dealt.0);
    var ps := ResetBets(stepped.players);
    && rest == dealt.1 && err == dealt.2
    && t == if err.Some? || stepped.phase == Showdown then stepped
            else stepped.(currentBet := 0, lastRaiser := None, lastRaiseAmount := 0, streetIndex := 0,
                          players := ps, currentPlayer := NextActiveIndex(ps, stepped.dealerPosition))
  }

  /** The table `t`, with deck `deck`, right after a new hand was set up for the players `before`. */
  predicate NewHandTable(before: seq<Player>, t: V2State.GameSnapshot, deck: Option<seq<Card>>, shuffled: seq<Card>) {
    var ps := t.players;
    && |before| >= 2 && SameSeats(before, ps)
    && t.phase == PreFlop && t.communityCards == []
    && t.lastRaiser.None? && t.lastRaiseAmount == 0 && t.streetIndex == 0
    && t.currentPlayer == Some(FirstPlayerIndex(|ps|, t.dealerPosition))
    && t.currentBet == (if before[BigBlindIndex(|ps|, t.dealerPosition)].chips >= t.bigBlind then t.bigBlind else 0)
    && deck.Some? && |deck.value| == |shuffled| - 2 * CountIf(before, NotOut)
    && TotalChips(ps) + TotalBets(ps) == TotalChips(before)
    && forall k :: 0 <= k < |ps| && NotOut(before[k]) ==> |ps[k].holeCards| == 2
  }

  /** Clearing the street's bets keeps who is OUT, every stack, and leaves no bet. */
  lemma FreshHandCounts(ps: seq<Player>)
    ensures CountIf(ResetBets(ps), NotOut) == CountIf(ps, NotOut)
    ensures TotalChips(ResetBets(ps)) == TotalChips(ps) && TotalBets(ResetBets(ps)) == 0
    ensures SameSeats(ps, ResetBets(ps))
  {
    CountIfSame(ps, ResetBets(ps), NotOut);
    Core.ResetBetsFacts(ps);
  }

  /**
   * The steps of `_reset_for_new_hand` put together: the street reset (`s1`), the deal (`s2`),
   * the blinds (`s3`) and the first player (`s4`) give a new-hand table.
   */
  lemma NewHandFacts(s0: V2State.GameSnapshot, s1: V2State.GameSnapshot, s2: V2State.GameSnapshot,
                     s3: V2State.GameSnapshot, s4: V2State.GameSnapshot, shuffled: seq<Card>, left: seq<Card>)
    requires |s0.players| >= 2
    requires s1 == s0.(phase := PreFlop, communityCards := [], currentBet := 0, lastRaiser := None,
                       lastRaiseAmount := 0, streetIndex := 0, players := ResetBets(s0.players))
    requires s2 == s1.(players := s2.players) && |s2.players| == |s1.players|
    requires forall k :: 0 <= k < |s2.players| ==> V2State.DealtTo(s1.players[k], s2.players[k])
    requires TotalChips(s2.players) == TotalChips(s1.players) && TotalBets(s2.players) == TotalBets(s1.players)
    requires |left| == |shuffled| - 2 * CountIf(s1.players, NotOut)
    requires PostedBlinds(s2.players, s2.dealerPosition, s2.smallBlind, s2.bigBlind).Ok?
    requires var posted := PostedBlinds(s2.players, s2.dealerPosition, s2.smallBlind, s2.bigBlind).value;
      s3 == s2.(players := posted.0, currentBet := if posted.1 then s2.bigBlind else s2.currentBet)
    requires s4 == s3.(currentPlayer := Some(FirstPlayerIndex(|s3.players|, s3.dealerPosition)))
    ensures NewHandTable(s0.players, s4, Some(left), shuffled)
  {
    FreshHandCounts(s0.players);
    var bi := BigBlindIndex(|s2.players|, s2.dealerPosition);
    assert s2.players[bi].chips == s0.players[bi].chips;
    forall k | 0 <= k < |s4.players| && NotOut(s0.players[k]) ensures |s4.players[k].holeCards| == 2 {
      assert NotOut(s1.players[k]);
    }
  }

  class PokerController {
    const state: V2State.GameState
    var handInProgress: bool

    ghost predicate Valid()
      reads this, state
    {
      state.Valid()
    }

    constructor (state: V2State.GameState)
      requires state.Valid()
      ensures this.state == state && !handInProgress && Valid()
    {
      this.state := state;
      handInProgress := false;
    }

    // -------------------------------------------------------------------------------------
    // Hand lifecycle

    /**
     * `start_new_hand`: refused while a hand is running; with fewer than two ACTIVE players
     * holding chips it returns false and changes nothing; otherwise the hand is set up and
     * then in progress.
     */
    method StartNewHand(shuffled: seq<Card>) returns (r: Result<bool, ControllerError>)
      requires Valid()
      modifies this, state
      ensures Valid()
      ensures r == Err(HandInProgress) <==> old(handInProgress)
      ensures r == Ok(false) <==> !old(handInProgress) && CountIf(old(state.players), CanAct) < 2
      ensures old(handInProgress) || CountIf(old(state.players), CanAct) < 2 ==>
        && handInProgress == old(handInProgress)
        && state.CreateSnapshot() == old(state.CreateSnapshot()) && state.deck == old(state.deck)
      ensures r.Err? && r.error.DealFailed? <==>
        !old(handInProgress) && CountIf(old(state.players), CanAct) >= 2
        && 2 * CountIf(old(state.players), NotOut) > |shuffled|
      ensures r == Ok(true) ==>
        handInProgress && state.dealerPosition == old(state.dealerPosition)
        && NewHandTable(old(state.players), state.CreateSnapshot(), state.deck, shuffled)
    {
      if handInProgress {
        return Err(HandInProgress);
      }
      if CountIf(state.players, CanAct) < 2 {
        return Ok(false);
      }
      CountIfAtMost(state.players, CanAct);
      var err := ResetForNewHand(shuffled);
      if err.Some? {
        return Err(err.value);
      }
      handInProgress := true;
      return Ok(true);
    }

    /**
     * `_reset_for_new_hand`: PRE_FLOP with an empty board and a fresh street, a new shuffled
     * deck, two cards to every player not OUT, the blinds, and the first player.
     */
    method ResetForNewHand(shuffled: seq<Card>) returns (err: Option<ControllerError>)
      requires Valid() && |state.players| >= 2
      modifies state
      ensures Valid()
      ensures err.Some? ==> err.value.DealFailed? || err.value.Refused?
      ensures err.Some? && err.value.DealFailed? <==> 2 * CountIf(old(state.players), NotOut) > |shuffled|
      ensures err.None? ==> NewHandTable(old(state.players), state.CreateSnapshot(), state.deck, shuffled)
      ensures err.None? ==> state.dealerPosition == old(state.dealerPosition)
    {
      ghost var s0 := state.CreateSnapshot();
      state.phase := PreFlop;
      state.communityCards := [];
      state.ResetBettingRound();
      state.InitializeDeck(shuffled);
      ghost var s1 := state.CreateSnapshot();
      FreshHandCounts(s0.players);
      var dealErr := state.DealHoleCards();
      if dealErr.Some? {
        return Some(DealFailed(dealErr.value));
      }
      ghost var s2 := state.CreateSnapshot();
      ghost var left := state.deck.value;
      var blindErr := PostBlinds();
      if blindErr.Some? {
        return Some(Refused(blindErr.value));
      }
      ghost var s3 := state.CreateSnapshot();
      SetFirstPlayer();
      NewHandFacts(s0, s1, s2, s3, state.CreateSnapshot(), shuffled, left);
      return None;
    }

    /**
     * `_post_blinds`: with fewer than two players nothing happens; otherwise the blinds of
     * `PostedBlinds`, and the standing bet becomes the big blind when it was posted.
     */
    method PostBlinds() returns (err: Option<PlayerError>)
      requires Valid()
      modifies state
      ensures Valid() && state.deck == old(state.deck)
      ensures |old(state.players)| < 2 ==> err.None? && state.CreateSnapshot() == old(state.CreateSnapshot())
      ensures |old(state.players)| >= 2 ==>
        var posted := PostedBlinds(old(state.players), old(state.dealerPosition), old(state.smallBlind), old(state.bigBlind));
        && (err.Some? <==> posted.Err?)
        && (err.Some? ==> err.value == posted.error)
        && (err.None? ==> state.CreateSnapshot() == old(state.CreateSnapshot()).(
              players := posted.value.0,
              currentBet := if posted.value.1 then old(state.bigBlind) else old(state.currentBet)))
    {
      var ps := state.players;
      if |ps| < 2 {
        return None;
      }
      RingPositions(|ps|, state.dealerPosition);
      var si, bi := SmallBlindIndex(|ps|, state.dealerPosition), BigBlindIndex(|ps|, state.dealerPosition);
      var small := PostBlindAt(ps, si, state.smallBlind, true);
      if small.Err? {
        return Some(small.error);
      }
      var big := PostBlindAt(small.value, bi, state.bigBlind, false);
      if big.Err? {
        return Some(big.error);
      }
      SameSeatsDistinct(ps, big.value);
      state.players := big.value;
      if small.value[bi].chips >= state.bigBlind {
        state.currentBet := state.bigBlind;
      }
      return None;
    }

    /** `_set_first_player`: by list index, heads-up the player after the dealer, otherwise the third after. */
    method SetFirstPlayer()
      requires Valid() && |state.players| > 0
      modifies state
      ensures Valid() && state.deck == old(state.deck)
      ensures state.CreateSnapshot() == old(state.CreateSnapshot()).(
        currentPlayer := Some(FirstPlayerIndex(|old(state.players)|, old(state.dealerPosition))))
    {
      var n := |state.players|;
      if n < 3 {
        state.currentPlayer := Some((state.dealerPosition + 1) % n);
      } else {
        state.currentPlayer := Some((state.dealerPosition + 3) % n);
      }
    }

    /** `end_hand`: nothing without a hand; otherwise the hand ends, reporting the pot and no winners yet. */
    method EndHand() returns (r: Option<HandResult>)
      modifies this
      ensures r.None? <==> !old(handInProgress)
      ensures r.Some? ==> r.value == HandResult([], state.pot)
      ensures !handInProgress
    {
      if !handInProgress {
        return None;
      }
      handInProgress := false;
      return Some(HandResult([], state.pot));
    }

    /**
     * `is_hand_over`: no hand running, at most one player still contesting the pot, SHOWDOWN,
     * or a RIVER street on which every ACTIVE player has matched the bet.
     */
    predicate IsHandOver()
      reads this, state
    {
      || !handInProgress
      || CountIf(state.players, InHand) <= 1
      || state.phase == Showdown
      || (state.phase == River && AllMatched(state.players, state.currentBet))
    }

    /** `get_current_player_id`: the current index while the hand runs and is not over. */
    function CurrentPlayerId(): (r: Option<nat>)
      reads this, state
      ensures r.Some? ==> handInProgress && !IsHandOver() && r == state.currentPlayer
      ensures IsHandOver() ==> r.None?
    {
      if !handInProgress || IsHandOver() then None else state.currentPlayer
    }

    // -------------------------------------------------------------------------------------
    // Actions and streets

    /**
     * `_apply_action`: the action of `Applied`, then the turn passes on. A refused bet or an
     * unknown seat raises before anything changes.
     */
    method ApplyAction(a: AV.Action) returns (err: Option<ControllerError>)
      requires Valid()
      modifies state
      ensures Valid() && state.deck == old(state.deck)
      ensures err.Some? <==> Applied(old(state.CreateSnapshot()), a).Err?
      ensures err.Some? ==> err.value == Applied(old(state.CreateSnapshot()), a).error
                            && state.CreateSnapshot() == old(state.CreateSnapshot())
      ensures err.None? ==> state.CreateSnapshot() == TurnPassed(Applied(old(state.CreateSnapshot()), a).value)
    {
      err := Act(a);
      if err.None? {
        AdvanceToNextPlayer();
      }
    }

    /** The branches of `_apply_action`, before the turn passes. */
    method Act(a: AV.Action) returns (err: Option<ControllerError>)
      requires Valid()
      modifies state
      ensures Valid() && state.deck == old(state.deck)
      ensures err.Some? <==> Applied(old(state.CreateSnapshot()), a).Err?
      ensures err.Some? ==> err.value == Applied(old(state.CreateSnapshot()), a).error
                            && state.CreateSnapshot() == old(state.CreateSnapshot())
      ensures err.None? ==> state.CreateSnapshot() == Applied(old(state.CreateSnapshot()), a).value
    {
      ghost var s := state.CreateSnapshot();
      var idx := IndexOfSeat(state.players, a.seat);
      if idx.None? {
        return Some(UnknownSeat);
      }
      var i := idx.value;
      var p := state.players[i];
      if a.kind.Fold? {
        state.players := state.players[i := p.(status := Folded)];
      } else if a.kind.Check? {
      } else if a.kind.Call? {
        var owed := state.currentBet - p.currentBet;
        if owed > 0 {
          var b := Bet(p, owed);
          if b.Err? {
            return Some(Refused(b.error));
          }
          state.players := state.players[i := b.value.0];
        }
      } else if a.kind.Bet? {
        var b := Bet(p, a.amount);
        if b.Err? {
          return Some(Refused(b.error));
        }
        state.players := state.players[i := b.value.0];
        state.currentBet := a.amount;
        state.lastRaiser := Some(a.seat);
      } else if a.kind.Raise? {
        var total := state.currentBet + a.amount;
        var b := Bet(p, total - p.currentBet);
        if b.Err? {
          return Some(Refused(b.error));
        }
        state.players := state.players[i := b.value.0];
        state.currentBet := total;
        state.lastRaiser := Some(a.seat);
        state.lastRaiseAmount := a.amount;
      } else {
        var b := Bet(p, p.chips);
        if b.Err? {
          return Some(Refused(b.error));
        }
        var q := b.value.0.(status := AllIn);
        state.players := state.players[i := q];
        if q.currentBet > state.currentBet {
          state.currentBet := q.currentBet;
          state.lastRaiser := Some(a.seat);
        }
      }
      assert state.CreateSnapshot() == Applied(s, a).value;
      AppliedKeepsChips(s, a);
      SameSeatsDistinct(s.players, state.players);
      err := None;
    }
    /** `_advance_to_next_player`: with a current player, the turn passes as `NextActiveIndex` says. */
    method AdvanceToNextPlayer()
      requires Valid()
      modifies state
      ensures Valid() && state.deck == old(state.deck)
      ensures state.CreateSnapshot() == TurnPassed(old(state.CreateSnapshot()))
    {
      if state.currentPlayer.None? {
        return;
      }
      var next := ScanActive(state.players, state.currentPlayer.value);
      state.currentPlayer := next;
    }

    /** `_all_actions_complete`, as a loop over the players. */
    method AllActionsComplete() returns (r: bool)
      ensures r <==> AllMatched(state.players, state.currentBet)
    {
      var ps := state.players;
      var i := 0;
      while i < |ps|
        invariant 0 <= i <= |ps|
        invariant forall k :: 0 <= k < i && IsActive(ps[k]) ==> ps[k].currentBet >= state.currentBet
      {
        if ps[i].status == Active && ps[i].currentBet < state.currentBet {
          return false;
        }
        i := i + 1;
      }
      return true;
    }

    /** `_check_phase_transition`: once every ACTIVE player has matched, the street closes. */
    method CheckPhaseTransition() returns (err: Option<V2State.StateError>)
      requires Valid()
      modifies state
      ensures Valid()
      ensures !AllMatched(old(state.players), old(state.currentBet)) ==>
        err.None? && state.CreateSnapshot() == old(state.CreateSnapshot()) && state.deck == old(state.deck)
      ensures AllMatched(old(state.players), old(state.currentBet)) ==> state.phase == StreetAfter(old(state.phase))
      ensures AllMatched(old(state.players), old(state.currentBet)) ==>
        PhaseAdvanced(old(state.CreateSnapshot()), old(state.deck), err, state.CreateSnapshot(), state.deck)
    {
      var done := AllActionsComplete();
      if done {
        err := AdvanceToNextPhase();
      } else {
        err := None;
      }
    }

    /**
     * `_advance_to_next_phase`: the bets go to the pot; PRE_FLOP, FLOP and TURN step on and
     * deal 3, 1 and 1 board cards, RIVER steps to SHOWDOWN; short of SHOWDOWN a new street
     * starts with the first ACTIVE player after the dealer. A deal the deck cannot serve raises.
     */
    method AdvanceToNextPhase() returns (err: Option<V2State.StateError>)
      requires Valid()
      modifies state
      ensures Valid()
      ensures state.phase == StreetAfter(old(state.phase))
      ensures state.pot == old(state.pot) + TotalBets(old(state.players))
      ensures TotalBets(state.players) == 0 && TotalChips(state.players) == TotalChips(old(state.players))
      ensures err.Some? <==>
        CardsDealtAfter(old(state.phase)) > 0
        && (old(state.deck).None? || |old(state.deck).value| < CardsDealtAfter(old(state.phase)) + 1)
      ensures err.None? ==>
        state.communityCards == old(state.communityCards) + (if CardsDealtAfter(old(state.phase)) == 0 then [] else old(state.deck).value[1..CardsDealtAfter(old(state.phase)) + 1])
      ensures err.None? && state.phase != Showdown ==>
        && state.currentBet == 0 && state.lastRaiser.None? && state.lastRaiseAmount == 0 && state.streetIndex == 0
        && state.currentPlayer == NextActiveIndex(state.players, state.dealerPosition)
      ensures PhaseAdvanced(old(state.CreateSnapshot()), old(state.deck), err, state.CreateSnapshot(), state.deck)
    {
      var collected := state.CollectBetsToPot();
      err := StepAndDeal();
      if err.Some? {
        return;
      }
      if state.phase != Showdown {
        ghost var collectedPlayers := state.players;
        state.ResetBettingRound();
        Core.ResetBetsFacts(collectedPlayers);
        SetFirstPlayerForNewRound();
      }
    }

    /** The phase switch of `_advance_to_next_phase`: one phase on, and that street's board cards. */
    method StepAndDeal() returns (err: Option<V2State.StateError>)
      requires Valid()
      modifies state
      ensures Valid()
      ensures state.CreateSnapshot() == old(state.CreateSnapshot()).(phase := state.phase, communityCards := state.communityCards)
      ensures state.phase == StreetAfter(old(state.phase))
      ensures err.Some? <==>
        CardsDealtAfter(old(state.phase)) > 0
        && (old(state.deck).None? || |old(state.deck).value| < CardsDealtAfter(old(state.phase)) + 1)
      ensures err.None? ==>
        state.communityCards == old(state.communityCards) + (if CardsDealtAfter(old(state.phase)) == 0 then [] else old(state.deck).value[1..CardsDealtAfter(old(state.phase)) + 1])
      ensures var dealt := CommunityDealt(old(state.communityCards), old(state.deck), CardsDealtAfter(old(state.phase)));
        state.communityCards == dealt.0 && state.deck == dealt.1 && err == dealt.2
    {
      var count := CardsDealtAfter(state.phase);
      if state.phase in {PreFlop, Flop, Turn, River} {
        state.AdvancePhase();
      }
      if count > 0 {
        err := state.DealCommunityCards(count);
      } else {
        err := None;
      }
    }

    /** `_set_first_player_for_new_round`: the first ACTIVE player after the dealer's index, or None. */
    method SetFirstPlayerForNewRound()
      requires Valid()
      modifies state
      ensures Valid() && state.deck == old(state.deck)
      ensures state.CreateSnapshot() == old(state.CreateSnapshot()).(
        currentPlayer := NextActiveIndex(old(state.players), old(state.dealerPosition)))
    {
      var first := ScanActive(state.players, state.dealerPosition);
      state.currentPlayer := first;
    }
  }
}
