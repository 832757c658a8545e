/**
 * The second engine's table state (`GameState` of the v2 core): seating, dealing from the
 * deck, collecting bets, resetting a street, stepping the phase, and the snapshot that copies
 * the state out and restores it. The deck is the sequence of cards still to deal, dealt from
 * the front; the deck and player classes themselves are not part of this model.
 */
module V2State {
  import opened Common
  import opened Players
  import opened Phases
  import Core = CoreGameState

  datatype StateError = DeckMissing | NotEnoughCards | SeatOccupied

  /**
   * The immutable copy `create_snapshot` hands out. Players and cards are values, so nothing
   * done to the state later can reach into a snapshot.
   */
  datatype GameSnapshot = GameSnapshot(
    phase: Phase,
    communityCards: seq<Card>,
    pot: int,
    currentBet: int,
    lastRaiser: Option<nat>,
    lastRaiseAmount: int,
    players: seq<Player>,
    dealerPosition: nat,
    currentPlayer: Option<nat>,
    smallBlind: int,
    bigBlind: int,
    streetIndex: nat)

  /** A snapshot of a state the constructor accepts, with seat ids unique at the table. */
  predicate ValidSnapshot(s: GameSnapshot) {
    DistinctSeats(s.players) && Core.ConfigCheck(s.pot, s.currentBet, s.smallBlind, s.bigBlind).None?
  }

  /** The hole cards of the non-OUT players, in seat-list order. */
  function DealtHoles(ps: seq<Player>): seq<Card> {
    if ps == [] then []
    else DealtHoles(ps[..|ps| - 1]) + (if NotOut(ps[|ps| - 1]) then ps[|ps| - 1].holeCards else [])
  }

  /** `remove_player`: the list without the first player at `seat`, and that player; or no change. */
  function RemoveSeat(ps: seq<Player>, seat: nat): (r: (seq<Player>, Option<Player>))
    ensures r.1.None? <==> !SeatTaken(ps, seat)
    ensures r.1.None? ==> r.0 == ps
    ensures r.1.Some? ==>
      var i := IndexOfSeat(ps, seat).value;
      r.1.value == ps[i] && r.1.value.seat == seat && r.0 == ps[..i] + ps[i + 1..]
  {
    match IndexOfSeat(ps, seat)
    case None => (ps, None)
    case Some(i) => (ps[..i] + ps[i + 1..], Some(ps[i]))
  }

  /** Removing the seat just added gives back the table and the player. */
  lemma RemoveAfterAdd(ps: seq<Player>, p: Player)
    requires !SeatTaken(ps, p.seat)
    ensures RemoveSeat(ps + [p], p.seat) == (ps, Some(p))
  {
    var q := ps + [p];
    assert q[|ps|].seat == p.seat;
    var i := IndexOfSeat(q, p.seat).value;
    assert i == |ps|;
    assert q[..i] + q[i + 1..] == ps;
  }

  /** Removing a player keeps the other seats unique. */
  lemma RemoveKeepsSeats(ps: seq<Player>, seat: nat)
    requires DistinctSeats(ps)
    ensures DistinctSeats(RemoveSeat(ps, seat).0)
    ensures !SeatTaken(RemoveSeat(ps, seat).0, seat)
  {
    var r := RemoveSeat(ps, seat).0;
    if SeatTaken(ps, seat) {
      var i := IndexOfSeat(ps, seat).value;
      forall a, b | 0 <= a < b < |r| ensures r[a].seat != r[b].seat {
        var a', b' := if a < i then a else a + 1, if b < i then b else b + 1;
        assert r[a] == ps[a'] && r[b] == ps[b'];
      }
      forall a | 0 <= a < |r| ensures r[a].seat != seat {
        var a' := if a < i then a else a + 1;
        assert r[a] == ps[a'];
      }
    }
  }

  /** What dealing does to one player: a non-OUT player now holds two cards, nothing else changes. */
  predicate DealtTo(before: Player, after: Player) {
    && after == before.(holeCards := after.holeCards)
    && (NotOut(before) ==> |after.holeCards| == 2)
    && (!NotOut(before) ==> after == before)
  }

  /** One more player dealt: the dealt cards grow by that player's hole cards, if not OUT. */
  lemma DealtHolesStep(ps: seq<Player>, i: nat)
    requires i < |ps|
    ensures DealtHoles(ps[..i + 1]) == DealtHoles(ps[..i]) + (if NotOut(ps[i]) then ps[i].holeCards else [])
  {
    assert ps[..i + 1][..i] == ps[..i];
  }

  /** Giving player `i` its cards adds them to what the first `i + 1` players were dealt. */
  lemma DealOne(ps: seq<Player>, i: nat, cards: seq<Card>)
    requires i < |ps| && NotOut(ps[i])
    ensures DealtHoles(ps[i := ps[i].(holeCards := cards)][..i + 1]) == DealtHoles(ps[..i]) + cards
  {
    var qs := ps[i := ps[i].(holeCards := cards)];
    DealtHolesStep(qs, i);
    assert qs[..i] == ps[..i];
  }

  /** Moving one player from the undealt suffix to the dealt prefix moves its count along. */
  lemma NotOutStep(s: seq<Player>, i: nat)
    requires i < |s|
    ensures CountIf(s[i..], NotOut) == (if NotOut(s[i]) then 1 else 0) + CountIf(s[i + 1..], NotOut)
    ensures CountIf(s[..i + 1], NotOut) == CountIf(s[..i], NotOut) + (if NotOut(s[i]) then 1 else 0)
  {
    assert s[i..] == [s[i]] + s[i + 1..];
    CountIfAppend([s[i]], s[i + 1..], NotOut);
    assert [s[i]][..0] == [];
    assert s[..i + 1] == s[..i] + [s[i]];
    CountIfAppend(s[..i], [s[i]], NotOut);
  }

  class GameState {
    var phase: Phase
    var communityCards: seq<Card>
    var pot: int
    var currentBet: int
    var lastRaiser: Option<nat>
    var lastRaiseAmount: int
    var players: seq<Player>
    var dealerPosition: nat
    var currentPlayer: Option<nat>
    var smallBlind: int
    var bigBlind: int
    var streetIndex: nat
    var deck: Option<seq<Card>>

    /** `create_snapshot`: every field but the deck, copied. */
    function CreateSnapshot(): GameSnapshot
      reads this
    {
      GameSnapshot(phase, communityCards, pot, currentBet, lastRaiser, lastRaiseAmount, players,
                   dealerPosition, currentPlayer, smallBlind, bigBlind, streetIndex)
    }

    ghost predicate Valid()
      reads this
    {
      ValidSnapshot(CreateSnapshot())
    }

    constructor (s: GameSnapshot, deck: Option<seq<Card>>)
      requires ValidSnapshot(s)
      ensures CreateSnapshot() == s && this.deck == deck && Valid()
    {
      phase, communityCards, pot, currentBet := s.phase, s.communityCards, s.pot, s.currentBet;
      lastRaiser, lastRaiseAmount, players := s.lastRaiser, s.lastRaiseAmount, s.players;
      dealerPosition, currentPlayer, smallBlind := s.dealerPosition, s.currentPlayer, s.smallBlind;
      bigBlind, streetIndex, this.deck := s.bigBlind, s.streetIndex, deck;
    }

    /** The dataclass constructor with `__post_init__`'s checks; no players, no deck yet. */
    static method Create(phase: Phase, pot: int, currentBet: int, smallBlind: int, bigBlind: int)
      returns (r: Result<GameState, Core.ConfigError>)
      ensures r.Err? <==> Core.ConfigCheck(pot, currentBet, smallBlind, bigBlind).Some?
      ensures r.Err? ==> r.error == Core.ConfigCheck(pot, currentBet, smallBlind, bigBlind).value
      ensures r.Ok? ==> fresh(r.value) && r.value.Valid() && r.value.deck.None?
      ensures r.Ok? ==>
        r.value.CreateSnapshot() == GameSnapshot(phase, [], pot, currentBet, None, 0, [], 0, None, smallBlind, bigBlind, 0)
    {
      var check := Core.ConfigCheck(pot, currentBet, smallBlind, bigBlind);
      if check.Some? {
        return Err(check.value);
      }
      var s := new GameState(GameSnapshot(phase, [], pot, currentBet, None, 0, [], 0, None, smallBlind, bigBlind, 0), None);
      return Ok(s);
    }

    /** `restore_from_snapshot`: every field the snapshot holds is put back; the deck stays. */
    method RestoreFromSnapshot(s: GameSnapshot)
      requires ValidSnapshot(s)
      modifies this
      ensures CreateSnapshot() == s && deck == old(deck) && Valid()
    {
      phase, communityCards, pot, currentBet := s.phase, s.communityCards, s.pot, s.currentBet;
      lastRaiser, lastRaiseAmount, players := s.lastRaiser, s.lastRaiseAmount, s.players;
      dealerPosition, currentPlayer, smallBlind := s.dealerPosition, s.currentPlayer, s.smallBlind;
      bigBlind, streetIndex := s.bigBlind, s.streetIndex;
    }

    // -------------------------------------------------------------------------------------
    // Seating

    /** `add_player`: an occupied seat raises; otherwise the player joins at the end of the list. */
    method AddPlayer(p: Player) returns (err: Option<StateError>)
      requires Valid()
      modifies this
      ensures Valid() && deck == old(deck)
      ensures err.Some? <==> SeatTaken(old(players), p.seat)
      ensures err.Some? ==> err.value == SeatOccupied && players == old(players)
      ensures CreateSnapshot() == old(CreateSnapshot()).(players := players)
      ensures err.None? ==> players == old(players) + [p]
    {
      if IndexOfSeat(players, p.seat).Some? {
        return Some(SeatOccupied);
      }
      players := players + [p];
      return None;
    }

    /**
     * `remove_player`: the first player at `seat` leaves the list and is returned; the others
     * keep their order. Nobody there: None, and nothing changes.
     */
    method RemovePlayer(seat: nat) returns (removed: Option<Player>)
      requires Valid()
      modifies this
      ensures Valid() && deck == old(deck)
      ensures CreateSnapshot() == old(CreateSnapshot()).(players := players)
      ensures (players, removed) == RemoveSeat(old(players), seat)
    {
      removed := None;
      var i := 0;
      while i < |players|
        invariant 0 <= i <= |players|
        invariant forall k :: 0 <= k < i ==> players[k].seat != seat
      {
        if players[i].seat == seat {
          removed := Some(players[i]);
          RemoveKeepsSeats(players, seat);
          players := players[..i] + players[i + 1..];
          return;
        }
        i := i + 1;
      }
    }

    // -------------------------------------------------------------------------------------
    // Dealing

    /**
     * `initialize_deck`: a new deck shuffled by the table's random source. The shuffle is not
     * modelled; the shuffled order is the parameter.
     */
    method InitializeDeck(shuffled: seq<Card>)
      modifies this
      ensures CreateSnapshot() == old(CreateSnapshot()) && deck == Some(shuffled)
    {
      deck := Some(shuffled);
    }

    /**
     * `deal_hole_cards`: without a deck, or with fewer than two cards per non-OUT player, it
     * raises; otherwise each non-OUT player in turn takes the next two cards. The cards the
     * players now hold, followed by what is left of the deck, are exactly the deck before.
     */
    method DealHoleCards() returns (err: Option<StateError>)
      requires Valid()
      modifies this
      ensures Valid()
      ensures err == Some(DeckMissing) <==> old(deck).None?
      ensures err == Some(NotEnoughCards) <==> old(deck).Some? && 2 * CountIf(old(players), NotOut) > |old(deck).value|
      ensures err.Some? ==> err.value.DeckMissing? || err.value.NotEnoughCards?
      ensures err.Some? ==> CreateSnapshot() == old(CreateSnapshot()) && deck == old(deck)
      ensures err.None? ==> CreateSnapshot() == old(CreateSnapshot()).(players := players)
      ensures err.None? ==> deck.Some? && DealtHoles(players) + deck.value == old(deck).value
      ensures err.None? ==> |deck.value| == |old(deck).value| - 2 * CountIf(old(players), NotOut)
      ensures err.None? ==> |players| == |old(players)|
      ensures err.None? ==> forall k :: 0 <= k < |players| ==> DealtTo(old(players)[k], players[k])
      ensures err.None? ==> TotalChips(players) == TotalChips(old(players)) && TotalBets(players) == TotalBets(old(players))
    {
      if deck.None? {
        return Some(DeckMissing);
      }
      if 2 * CountIf(players, NotOut) > |deck.value| {
        return Some(NotEnoughCards);
      }
      var ps, left := DealRound(players, deck.value);
      players, deck := ps, Some(left);
      err := None;
    }

    /** The loop of `deal_hole_cards`, over the seat list and the remaining deck. */
    static method DealRound(players: seq<Player>, d: seq<Card>) returns (ps: seq<Player>, left: seq<Card>)
      requires 2 * CountIf(players, NotOut) <= |d|
      ensures |ps| == |players| && forall k :: 0 <= k < |ps| ==> DealtTo(players[k], ps[k])
      ensures DealtHoles(ps) + left == d
      ensures |left| == |d| - 2 * CountIf(players, NotOut)
      ensures TotalChips(ps) == TotalChips(players) && TotalBets(ps) == TotalBets(players)
    {
      ps, left := players, d;
      var i := 0;
      while i < |ps|
        invariant 0 <= i <= |ps| == |players|
        invariant forall k :: 0 <= k < i ==> DealtTo(players[k], ps[k])
        invariant forall k :: i <= k < |ps| ==> ps[k] == players[k]
        invariant DealtHoles(ps[..i]) + left == d
        invariant |left| == |d| - 2 * CountIf(players[..i], NotOut)
        invariant |left| >= 2 * CountIf(players[i..], NotOut)
        invariant TotalChips(ps) == TotalChips(players) && TotalBets(ps) == TotalBets(players)
      {
        NotOutStep(players, i);
        ps, left := DealNext(ps, i, left);
        i := i + 1;
      }
      assert ps[..i] == ps;
      assert players[..i] == players;
    }

    /** One turn of that loop: player `i` takes the next two cards when it is not OUT. */
    static method DealNext(ps: seq<Player>, i: nat, left: seq<Card>) returns (ps': seq<Player>, left': seq<Card>)
      requires i < |ps| && (NotOut(ps[i]) ==> |left| >= 2)
      ensures |ps'| == |ps| && DealtTo(ps[i], ps'[i])
      ensures forall k :: 0 <= k < |ps| && k != i ==> ps'[k] == ps[k]
      ensures DealtHoles(ps'[..i + 1]) + left' == DealtHoles(ps[..i]) + left
      ensures |left'| == |left| - (if NotOut(ps[i]) then 2 else 0)
      ensures TotalChips(ps') == TotalChips(ps) && TotalBets(ps') == TotalBets(ps)
    {
      if NotOut(ps[i]) {
        var cards := left[..2];
        assert left == cards + left[2..];
        DealOne(ps, i, cards);
        ps', left' := ps[i := ps[i].(holeCards := cards)], left[2..];
        SumOfUpdate(ps, i, ps'[i], ChipsOf);
        SumOfUpdate(ps, i, ps'[i], BetOf);
      } else {
        DealtHolesStep(ps, i);
        ps', left' := ps, left;
      }
    }

    /**
     * `deal_community_cards(count)`: without a deck it raises; a count of zero or less changes
     * nothing. Otherwise one card is burnt when any is left, then `count` cards go to the
     * board; a deck that runs out raises, with the cards dealt so far left on the board.
     */
    method DealCommunityCards(count: int) returns (err: Option<StateError>)
      requires Valid()
      modifies this
      ensures Valid()
      ensures CreateSnapshot() == old(CreateSnapshot()).(communityCards := communityCards)
      ensures err == Some(DeckMissing) <==> old(deck).None?
      ensures old(deck).None? || count <= 0 ==> communityCards == old(communityCards) && deck == old(deck)
      ensures old(deck).Some? && count > 0 ==>
        var d := old(deck).value;
        && deck.Some?
        && (err.None? <==> |d| >= count + 1)
        && (err.None? ==> communityCards == old(communityCards) + d[1..count + 1] && deck.value == d[count + 1..])
        && (err.Some? ==> err.value == NotEnoughCards && deck.value == []
                          && communityCards == old(communityCards) + (if d == [] then [] else d[1..]))
    {
      if deck.None? {
        return Some(DeckMissing);
      }
      if count <= 0 {
        return None;
      }
      var d := deck.value;
      var left := d;
      if |left| > 0 {
        left := left[1..];
      }
      var board := communityCards;
      var n := 0;
      while n < count
        invariant 0 <= n <= count
        invariant n <= |left| + n == (if d == [] then 0 else |d| - 1)
        invariant board == old(communityCards) + (if d == [] then [] else d[1..n + 1])
        invariant left == (if d == [] then [] else d[n + 1..])
        invariant CreateSnapshot() == old(CreateSnapshot()) && deck == old(deck)
      {
        if |left| > 0 {
          assert d[1..n + 2] == d[1..n + 1] + [left[0]];
          board := board + [left[0]];
          left := left[1..];
          n := n + 1;
        } else {
          communityCards := board;
          deck := Some(left);
          return Some(NotEnoughCards);
        }
      }
      communityCards := board;
      deck := Some(left);
      return None;
    }

    // -------------------------------------------------------------------------------------
    // Streets

    /**
     * `collect_bets_to_pot`: every current bet moves into the pot and the total is returned;
     * the pot grows by exactly that amount and no bet is left.
     */
    method CollectBetsToPot() returns (collected: int)
      requires Valid()
      modifies this
      ensures Valid() && deck == old(deck)
      ensures CreateSnapshot() == old(CreateSnapshot()).(pot := pot, players := ResetBets(old(players)))
      ensures collected == TotalBets(old(players)) && collected >= 0
      ensures pot == old(pot) + collected
      ensures TotalBets(players) == 0 && TotalChips(players) == TotalChips(old(players))
    {
      collected := 0;
      var i := 0;
      while i < |players|
        invariant 0 <= i <= |players| == |old(players)|
        invariant collected == TotalBets(old(players)[..i]) && pot == old(pot) + collected
        invariant forall k :: 0 <= k < i ==> players[k] == ResetCurrentBet(old(players)[k])
        invariant forall k :: i <= k < |players| ==> players[k] == old(players)[k]
        invariant CreateSnapshot() == old(CreateSnapshot()).(pot := pot, players := players) && deck == old(deck)
      {
        Core.BetsPrefixStep(old(players), i);
        collected := collected + players[i].currentBet;
        pot := pot + players[i].currentBet;
        players := players[i := ResetCurrentBet(players[i])];
        i := i + 1;
      }
      assert old(players)[..i] == old(players);
      assert players == ResetBets(old(players));
      Core.ResetBetsFacts(old(players));
      SumOfNonNegative(old(players), BetOf);
    }

    /** `reset_betting_round`: the street's bet, raiser, raise size, action count and every bet cleared. */
    method ResetBettingRound()
      requires Valid()
      modifies this
      ensures Valid() && deck == old(deck)
      ensures CreateSnapshot() == old(CreateSnapshot()).(currentBet := 0, lastRaiser := None, lastRaiseAmount := 0,
                                                         streetIndex := 0, players := ResetBets(old(players)))
    {
      currentBet := 0;
      lastRaiser := None;
      lastRaiseAmount := 0;
      streetIndex := 0;
      var i := 0;
      while i < |players|
        invariant 0 <= i <= |players| == |old(players)|
        invariant forall k :: 0 <= k < i ==> players[k] == ResetCurrentBet(old(players)[k])
        invariant forall k :: i <= k < |players| ==> players[k] == old(players)[k]
        invariant CreateSnapshot() == old(CreateSnapshot()).(currentBet := 0, lastRaiser := None, lastRaiseAmount := 0,
                                                             streetIndex := 0, players := players)
        invariant deck == old(deck)
      {
        players := players[i := ResetCurrentBet(players[i])];
        i := i + 1;
      }
      assert players == ResetBets(old(players));
      Core.ResetBetsFacts(old(players));
    }

    /** `advance_phase`: one step along PRE_FLOP, FLOP, TURN, RIVER, SHOWDOWN. */
    method AdvancePhase()
      modifies this
      ensures CreateSnapshot() == old(CreateSnapshot()).(phase := NextInOrder(old(phase))) && deck == old(deck)
    {
      phase := NextInOrder(phase);
    }
  }
}
