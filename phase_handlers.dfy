/**
 * The v3 phase handlers: the transition table every handler consults, and the effects each
 * phase has on the shared game context when it is entered and when a player acts in it.
 *
 * The context is a class; its players are the entries of an ordered dictionary, modelled as
 * a sequence of records whose optional fields stand for keys that may be absent.  The loops
 * the handlers run over the players are `while` loops proved against value functions
 * (`Prepared`, `DealtHoles`, `BetsCleared`, `Cleaned`).
 */
module PhaseHandlers {
  import opened Common
  import opened Phases

  type PlayerId = string

  /** A board entry: the flop handler deals real cards, the turn and river handlers append labels. */
  datatype BoardCard = Dealt(card: Card) | Placeholder(name: string)

  /** A player's dictionary in the context; an absent key is `None`. */
  datatype PlayerRecord = PlayerRecord(
    id: PlayerId,
    chips: int,
    currentBet: Option<int>,
    totalBetThisHand: Option<int>,
    status: Option<string>,
    holeCards: Option<seq<Card>>,
    winnings: Option<int>,
    active: Option<bool>)

  /** A player action as the handlers receive it: its `type` and `amount` keys, either may be absent. */
  datatype ActionRequest = ActionRequest(kind: Option<string>, amount: Option<int>)

  datatype EventType = InvalidAction | PlayerFolded | PlayerCalled | PlayerRaised | PlayerChecked | HandStart

  /** An emitted event; the reason texts are not modelled. */
  datatype GameEvent = GameEvent(eventType: EventType, playerId: Option<PlayerId>, amount: Option<int>, sourcePhase: Phase)

  // ---------------------------------------------------------------- the transition table

  /** `valid_transitions` of `can_transition_to`. */
  function ValidTransitions(p: Phase): seq<Phase> {
    match p
    case Init => [PreFlop]
    case PreFlop => [Flop, Showdown, Finished]
    case Flop => [Turn, Showdown, Finished]
    case Turn => [River, Showdown, Finished]
    case River => [Showdown, Finished]
    case Showdown => [Finished]
    case Finished => [PreFlop, Init]
  }

  predicate CanTransitionTo(from: Phase, to: Phase) {
    to in ValidTransitions(from)
  }

  /** The position of a phase in a hand, INIT first and FINISHED last. */
  function Stage(p: Phase): nat {
    match p
    case Init => 0
    case PreFlop => 1
    case Flop => 2
    case Turn => 3
    case River => 4
    case Showdown => 5
    case Finished => 6
  }

  /** Within a hand the table only moves forward, every phase after INIT may end the hand,
    * the street phases may jump to SHOWDOWN, and only FINISHED leads back to a new hand. */
  lemma TransitionTable(from: Phase, to: Phase)
    ensures CanTransitionTo(from, to) && from != Finished ==> Stage(from) < Stage(to)
    ensures CanTransitionTo(from, Finished) <==> from != Init && from != Finished
    ensures CanTransitionTo(from, Showdown) <==> 1 <= Stage(from) <= 4
    ensures CanTransitionTo(Finished, to) <==> to == PreFlop || to == Init
    ensures CanTransitionTo(from, Init) <==> from == Finished
    ensures !CanTransitionTo(from, from)
  {
  }

  // ---------------------------------------------------------------- the context

  class GameContext {
    var players: seq<PlayerRecord>
    var communityCards: seq<BoardCard>
    var potTotal: int
    var currentBet: int
    var activePlayerId: Option<PlayerId>
    const smallBlind: int
    const bigBlind: int

    constructor(players: seq<PlayerRecord>, smallBlind: int, bigBlind: int)
      ensures this.players == players && this.smallBlind == smallBlind && this.bigBlind == bigBlind
      ensures communityCards == [] && potTotal == 0 && currentBet == 0 && activePlayerId == None
    {
      this.players := players;
      this.smallBlind := smallBlind;
      this.bigBlind := bigBlind;
      communityCards := [];
      potTotal := 0;
      currentBet := 0;
      activePlayerId := None;
    }
  }

  function Chips(p: PlayerRecord): int {
    p.chips
  }

  /** The chips all players hold. */
  function ChipTotal(ps: seq<PlayerRecord>): int {
    SumOf(ps, Chips)
  }

  // ---------------------------------------------------------------- INIT

  /** `InitHandler.on_enter`: clear the board, the pot, the line and the player to act. */
  method InitEnter(ctx: GameContext)
    modifies ctx
    ensures ctx.communityCards == [] && ctx.potTotal == 0 && ctx.currentBet == 0 && ctx.activePlayerId == None
    ensures ctx.players == old(ctx.players)
  {
    ctx.communityCards := [];
    ctx.potTotal := 0;
    ctx.currentBet := 0;
    ctx.activePlayerId := None;
  }

  // ---------------------------------------------------------------- PRE_FLOP: blinds

  /** A bet field that is absent becomes 0; a present one is kept. */
  function OrZero(v: Option<int>): Option<int> {
    if v.None? then Some(0) else v
  }

  /** The first loop of `_setup_blinds`: make sure both bet fields exist. */
  function Prepared(p: PlayerRecord): (r: PlayerRecord)
    ensures r.currentBet.Some? && r.totalBetThisHand.Some?
    ensures r.(currentBet := p.currentBet, totalBetThisHand := p.totalBetThisHand) == p
  {
    p.(currentBet := OrZero(p.currentBet), totalBetThisHand := OrZero(p.totalBetThisHand))
  }

  /** A blind is taken only from a player who can afford it. */
  function Posted(p: PlayerRecord, amount: int): int {
    if p.chips >= amount then amount else 0
  }

  function PostBlind(p: PlayerRecord, amount: int): PlayerRecord {
    if p.chips >= amount then p.(chips := p.chips - amount, currentBet := Some(amount), totalBetThisHand := Some(amount))
    else p
  }

  /** The players after `_setup_blinds` (two or more of them): everyone prepared, then the
    * first posts the small blind and the second the big blind, each only if affordable. */
  function Blinds(ps: seq<PlayerRecord>, small: int, big: int): seq<PlayerRecord>
    requires |ps| >= 2
  {
    var prepared := seq(|ps|, i requires 0 <= i < |ps| => Prepared(ps[i]));
    prepared[0 := PostBlind(prepared[0], small)][1 := PostBlind(prepared[1], big)]
  }

  /** What `_setup_blinds` adds to the pot. */
  function BlindPot(ps: seq<PlayerRecord>, small: int, big: int): int
    requires |ps| >= 2
  {
    Posted(ps[0], small) + Posted(ps[1], big)
  }

  /** The blinds move chips from the first two players into the pot and nowhere else: the
    * chips plus the pot are unchanged, each blind is taken exactly when affordable and then
    * becomes that player's current and total bet, and every other player is only prepared. */
  lemma BlindsConserve(ps: seq<PlayerRecord>, small: int, big: int)
    requires |ps| >= 2
    ensures var r := Blinds(ps, small, big);
      && |r| == |ps|
      && ChipTotal(r) + BlindPot(ps, small, big) == ChipTotal(ps)
      && r[0].chips == ps[0].chips - Posted(ps[0], small)
      && r[1].chips == ps[1].chips - Posted(ps[1], big)
      && (ps[0].chips >= small ==> r[0].currentBet == r[0].totalBetThisHand == Some(small))
      && (ps[1].chips >= big ==> r[1].currentBet == r[1].totalBetThisHand == Some(big))
      && (forall i :: 2 <= i < |ps| ==> r[i] == Prepared(ps[i]))
      && (forall i :: 0 <= i < |ps| ==> r[i].id == ps[i].id)
  {
    var prepared := seq(|ps|, i requires 0 <= i < |ps| => Prepared(ps[i]));
    var afterSmall := prepared[0 := PostBlind(prepared[0], small)];
    assert ChipTotal(prepared) == ChipTotal(ps) by {
      ChipsUnchanged(ps, prepared);
    }
    SumOfUpdate(prepared, 0, PostBlind(prepared[0], small), Chips);
    SumOfUpdate(afterSmall, 1, PostBlind(afterSmall[1], big), Chips);
  }

  /** Two player lists that agree on every player's chips hold the same chips. */
  lemma {:induction false} ChipsUnchanged(a: seq<PlayerRecord>, b: seq<PlayerRecord>)
    requires |a| == |b| && forall i :: 0 <= i < |a| ==> a[i].chips == b[i].chips
    ensures ChipTotal(a) == ChipTotal(b)
  {
    if a != [] {
      ChipsUnchanged(a[..|a| - 1], b[..|b| - 1]);
    }
  }

  /** `_setup_blinds`: fewer than two players changes nothing; otherwise the blinds are posted
    * as `Blinds` says and the line is set to the big blind, posted or not. */
  method SetupBlinds(ctx: GameContext)
    modifies ctx`players, ctx`potTotal, ctx`currentBet
    ensures |old(ctx.players)| < 2 ==>
      ctx.players == old(ctx.players) && ctx.potTotal == old(ctx.potTotal) && ctx.currentBet == old(ctx.currentBet)
    ensures |old(ctx.players)| >= 2 ==>
      && ctx.players == Blinds(old(ctx.players), ctx.smallBlind, ctx.bigBlind)
      && ctx.potTotal == old(ctx.potTotal) + BlindPot(old(ctx.players), ctx.smallBlind, ctx.bigBlind)
      && ctx.currentBet == ctx.bigBlind
  {
    if |ctx.players| < 2 {
      return;
    }
    ghost var before := ctx.players;
    var i := 0;
    while i < |ctx.players|
      modifies ctx`players
      invariant 0 <= i <= |ctx.players| == |before|
      invariant forall k :: 0 <= k < i ==> ctx.players[k] == Prepared(before[k])
      invariant forall k :: i <= k < |before| ==> ctx.players[k] == before[k]
    {
      ctx.players := ctx.players[i := Prepared(ctx.players[i])];
      i := i + 1;
    }
    assert ctx.players == seq(|before|, k requires 0 <= k < |before| => Prepared(before[k]));
    var sb := ctx.players[0];
    assert sb.chips == before[0].chips && ctx.players[1].chips == before[1].chips;
    if sb.chips >= ctx.smallBlind {
      ctx.players := ctx.players[0 := PostBlind(sb, ctx.smallBlind)];
      ctx.potTotal := ctx.potTotal + ctx.smallBlind;
    }
    var bb := ctx.players[1];
    if bb.chips >= ctx.bigBlind {
      ctx.players := ctx.players[1 := PostBlind(bb, ctx.bigBlind)];
      ctx.potTotal := ctx.potTotal + ctx.bigBlind;
    }
    ctx.currentBet := ctx.bigBlind;
  }

  // ---------------------------------------------------------------- PRE_FLOP: hole cards

  /** The four fixed cards `_deal_hole_cards` cycles through: A♥ K♠ Q♦ J♣. */
  const TestCards: seq<Card> := [Card(14, Hearts), Card(13, Spades), Card(12, Diamonds), Card(11, Clubs)]

  /** `player.get('active', True)`. */
  predicate IsActive(p: PlayerRecord) {
    p.active != Some(false)
  }

  /** The number of active players. */
  function ActiveCount(ps: seq<PlayerRecord>): nat {
    if ps == [] then 0 else ActiveCount(ps[..|ps| - 1]) + (if IsActive(ps[|ps| - 1]) then 1 else 0)
  }

  /** The two cards dealt at card index `ci`. */
  function HoleAt(ci: nat): (r: seq<Card>)
    ensures |r| == 2 && r[0] in TestCards && r[1] in TestCards && r[0] != r[1]
  {
    [TestCards[ci % 4], TestCards[(ci + 1) % 4]]
  }

  function DealOne(p: PlayerRecord, ci: nat): PlayerRecord {
    if IsActive(p) then p.(holeCards := Some(HoleAt(ci))) else p
  }

  /** The players after `_deal_hole_cards`: each active player gets the two cards at twice the
    * number of active players before them; inactive players are untouched. */
  function DealtHoles(ps: seq<PlayerRecord>): seq<PlayerRecord> {
    seq(|ps|, k requires 0 <= k < |ps| => DealOne(ps[k], 2 * ActiveCount(ps[..k])))
  }

  /** Every active player ends with exactly two hole cards and nothing else changes; since the
    * cycle has four cards, active players alternate between A♥ K♠ and Q♦ J♣, so with three or
    * more active players two of them hold the same two cards. */
  lemma DealtHolesFacts(ps: seq<PlayerRecord>)
    ensures var r := DealtHoles(ps);
      && |r| == |ps|
      && (forall k :: 0 <= k < |ps| && !IsActive(ps[k]) ==> r[k] == ps[k])
      && (forall k :: 0 <= k < |ps| ==> r[k].(holeCards := ps[k].holeCards) == ps[k])
      && (forall k :: 0 <= k < |ps| && IsActive(ps[k]) ==>
            r[k].holeCards == Some(if ActiveCount(ps[..k]) % 2 == 0 then [Card(14, Hearts), Card(13, Spades)]
                                   else [Card(12, Diamonds), Card(11, Clubs)]))
  {
    forall k | 0 <= k < |ps| && IsActive(ps[k])
      ensures DealtHoles(ps)[k].holeCards == Some(if ActiveCount(ps[..k]) % 2 == 0 then [Card(14, Hearts), Card(13, Spades)]
                                                  else [Card(12, Diamonds), Card(11, Clubs)])
    {
      CycleOfTwo(ActiveCount(ps[..k]));
    }
  }

  /** The card index of the j-th active player is 2j, which is 0 or 2 modulo 4. */
  lemma CycleOfTwo(j: nat)
    ensures HoleAt(2 * j) == if j % 2 == 0 then [Card(14, Hearts), Card(13, Spades)] else [Card(12, Diamonds), Card(11, Clubs)]
  {
    var q := j / 2;
    assert j == 2 * q + j % 2;
    assert 2 * j == 4 * q + 2 * (j % 2);
    assert (2 * j) % 4 == 2 * (j % 2);
    assert (2 * j + 1) % 4 == 2 * (j % 2) + 1;
  }

  /** `_deal_hole_cards`; the players are updated one by one in a local copy that replaces the
    * context's list at the end, which no caller can tell apart from updating it in place. */
  method DealHoleCards(ctx: GameContext)
    modifies ctx`players
    ensures ctx.players == DealtHoles(old(ctx.players))
  {
    var ps := ctx.players;
    ghost var dealt := DealtHoles(ps);
    var cardIndex := 0;
    var i := 0;
    while i < |ps|
      invariant 0 <= i <= |ps| == |dealt|
      invariant cardIndex == 2 * ActiveCount(ctx.players[..i])
      invariant ps[..i] == dealt[..i] && ps[i..] == ctx.players[i..]
    {
      var p := ps[i];
      assert p == ctx.players[i];
      assert dealt[i] == DealOne(p, cardIndex);
      assert ActiveCount(ctx.players[..i + 1]) == ActiveCount(ctx.players[..i]) + (if IsActive(p) then 1 else 0) by {
        assert ctx.players[..i + 1][..i] == ctx.players[..i];
      }
      if IsActive(p) {
        ps := ps[i := p.(holeCards := Some(HoleAt(cardIndex)))];
        cardIndex := cardIndex + 2;
      }
      assert ps[..i + 1] == ps[..i] + [ps[i]];
      assert dealt[..i + 1] == dealt[..i] + [dealt[i]];
      i := i + 1;
    }
    assert ps == ps[..i] && dealt == dealt[..i];
    ctx.players := ps;
  }

  /** `PreFlopHandler.on_enter`: post the blinds, then deal the hole cards. */
  method PreFlopEnter(ctx: GameContext)
    modifies ctx`players, ctx`potTotal, ctx`currentBet
    ensures |old(ctx.players)| < 2 ==>
      ctx.players == DealtHoles(old(ctx.players)) && ctx.potTotal == old(ctx.potTotal) && ctx.currentBet == old(ctx.currentBet)
    ensures |old(ctx.players)| >= 2 ==>
      && ctx.players == DealtHoles(Blinds(old(ctx.players), ctx.smallBlind, ctx.bigBlind))
      && ctx.potTotal == old(ctx.potTotal) + BlindPot(old(ctx.players), ctx.smallBlind, ctx.bigBlind)
      && ctx.currentBet == ctx.bigBlind
  {
    SetupBlinds(ctx);
    DealHoleCards(ctx);
  }

  // ---------------------------------------------------------------- FLOP, TURN, RIVER

  /** The three cards of `_deal_flop_cards`: 10♥ 9♦ 8♣. */
  const FlopCards: seq<BoardCard> := [Dealt(Card(10, Hearts)), Dealt(Card(9, Diamonds)), Dealt(Card(8, Clubs))]

  /** The flop is dealt onto an empty board only; the turn and river labels are appended only
    * onto a board of three and four cards.  So from an empty board the three streets leave
    * exactly three, four and five cards, and a board of any other size is left alone. */
  function FlopBoard(board: seq<BoardCard>): seq<BoardCard> {
    if board == [] then FlopCards else board
  }

  function TurnBoard(board: seq<BoardCard>): seq<BoardCard> {
    if |board| == 3 then board + [Placeholder("Card4")] else board
  }

  function RiverBoard(board: seq<BoardCard>): seq<BoardCard> {
    if |board| == 4 then board + [Placeholder("Card5")] else board
  }

  lemma StreetsDealFiveCards()
    ensures |FlopBoard([])| == 3 && |TurnBoard(FlopBoard([]))| == 4 && |RiverBoard(TurnBoard(FlopBoard([])))| == 5
    ensures RiverBoard(TurnBoard(FlopBoard([])))[..3] == FlopCards
  {
  }

  /** Re-entering a street deals nothing twice. */
  lemma StreetsIdempotent(board: seq<BoardCard>)
    ensures FlopBoard(FlopBoard(board)) == FlopBoard(board)
    ensures TurnBoard(TurnBoard(board)) == TurnBoard(board)
    ensures RiverBoard(RiverBoard(board)) == RiverBoard(board)
    ensures |TurnBoard(board)| == (if |board| == 3 then 4 else |board|)
    ensures |RiverBoard(board)| == (if |board| == 4 then 5 else |board|)
  {
  }

  function ClearBet(p: PlayerRecord): PlayerRecord {
    p.(currentBet := Some(0))
  }

  /** `_reset_betting_round` on the players: every current bet becomes 0. */
  function BetsCleared(ps: seq<PlayerRecord>): (r: seq<PlayerRecord>)
    ensures |r| == |ps| && ChipTotal(r) == ChipTotal(ps)
    ensures forall k :: 0 <= k < |r| ==> r[k].currentBet == Some(0) && r[k].(currentBet := ps[k].currentBet) == ps[k]
  {
    var r := seq(|ps|, k requires 0 <= k < |ps| => ClearBet(ps[k]));
    ChipsUnchanged(ps, r);
    r
  }

  /** `_reset_betting_round`. */
  method ResetBettingRound(ctx: GameContext)
    modifies ctx`players, ctx`currentBet
    ensures ctx.currentBet == 0 && ctx.players == BetsCleared(old(ctx.players))
  {
    ctx.currentBet := 0;
    ghost var before := ctx.players;
    var i := 0;
    while i < |ctx.players|
      modifies ctx`players
      invariant 0 <= i <= |ctx.players| == |before|
      invariant forall k :: 0 <= k < i ==> ctx.players[k] == ClearBet(before[k])
      invariant forall k :: i <= k < |before| ==> ctx.players[k] == before[k]
    {
      ctx.players := ctx.players[i := ClearBet(ctx.players[i])];
      i := i + 1;
    }
  }

  /** `FlopHandler.on_enter`: the flop onto an empty board, then a fresh betting round. */
  method FlopEnter(ctx: GameContext)
    modifies ctx`communityCards, ctx`players, ctx`currentBet
    ensures ctx.communityCards == FlopBoard(old(ctx.communityCards))
    ensures ctx.currentBet == 0 && ctx.players == BetsCleared(old(ctx.players))
  {
    if |ctx.communityCards| == 0 {
      ctx.communityCards := ctx.communityCards + FlopCards;
    }
    ResetBettingRound(ctx);
  }

  /** `TurnHandler.on_enter`: only the line is reset; the players' bets are left as they are. */
  method TurnEnter(ctx: GameContext)
    modifies ctx`communityCards, ctx`currentBet
    ensures ctx.communityCards == TurnBoard(old(ctx.communityCards)) && ctx.currentBet == 0
  {
    if |ctx.communityCards| == 3 {
      ctx.communityCards := ctx.communityCards + [Placeholder("Card4")];
    }
    ctx.currentBet := 0;
  }

  /** `RiverHandler.on_enter`. */
  method RiverEnter(ctx: GameContext)
    modifies ctx`communityCards, ctx`currentBet
    ensures ctx.communityCards == RiverBoard(old(ctx.communityCards)) && ctx.currentBet == 0
  {
    if |ctx.communityCards| == 4 {
      ctx.communityCards := ctx.communityCards + [Placeholder("Card5")];
    }
    ctx.currentBet := 0;
  }

  // ---------------------------------------------------------------- SHOWDOWN and FINISHED

  predicate NotFolded(p: PlayerRecord) {
    p.status != Some("folded")
  }

  /** `_determine_winners`: the first player not folded is credited the pot as `winnings`
    * (replacing any earlier value) and the pot is emptied; with everyone folded nothing happens. */
  method DetermineWinners(ctx: GameContext)
    modifies ctx`players, ctx`potTotal
    ensures FirstIndex(old(ctx.players), NotFolded).None? ==>
      ctx.players == old(ctx.players) && ctx.potTotal == old(ctx.potTotal)
    ensures FirstIndex(old(ctx.players), NotFolded).Some? ==>
      var w := FirstIndex(old(ctx.players), NotFolded).value;
      ctx.players == old(ctx.players)[w := old(ctx.players)[w].(winnings := Some(old(ctx.potTotal)))]
      && ctx.potTotal == 0
    ensures ChipTotal(ctx.players) == ChipTotal(old(ctx.players))
  {
    var w := FirstIndex(ctx.players, NotFolded);
    if w.Some? {
      var p := ctx.players[w.value];
      SumOfUpdate(ctx.players, w.value, p.(winnings := Some(ctx.potTotal)), Chips);
      ctx.players := ctx.players[w.value := p.(winnings := Some(ctx.potTotal))];
      ctx.potTotal := 0;
    }
  }

  function Cleaned(p: PlayerRecord): PlayerRecord {
    p.(holeCards := None, status := None, winnings := None)
  }

  /** `_cleanup_hand` on the players: hole cards, status and winnings are removed. */
  function CleanedUp(ps: seq<PlayerRecord>): (r: seq<PlayerRecord>)
    ensures |r| == |ps| && ChipTotal(r) == ChipTotal(ps)
    ensures forall k :: 0 <= k < |r| ==> r[k].holeCards.None? && r[k].status.None? && r[k].winnings.None?
  {
    var r := seq(|ps|, k requires 0 <= k < |ps| => Cleaned(ps[k]));
    ChipsUnchanged(ps, r);
    r
  }

  /** `FinishedHandler.on_enter`. */
  method CleanupHand(ctx: GameContext)
    modifies ctx`players
    ensures ctx.players == CleanedUp(old(ctx.players))
  {
    ghost var before := ctx.players;
    var i := 0;
    while i < |ctx.players|
      modifies ctx`players
      invariant 0 <= i <= |ctx.players| == |before|
      invariant forall k :: 0 <= k < i ==> ctx.players[k] == Cleaned(before[k])
      invariant forall k :: i <= k < |before| ==> ctx.players[k] == before[k]
    {
      ctx.players := ctx.players[i := Cleaned(ctx.players[i])];
      i := i + 1;
    }
  }

  /** Showdown followed by cleanup: the winner's `winnings` are never added to their chips, so
    * the pot leaves the context altogether; the chips the players hold are those they held
    * before the showdown. */
  lemma ShowdownPotVanishes(ps: seq<PlayerRecord>, pot: int)
    requires FirstIndex(ps, NotFolded).Some?
    ensures var w := FirstIndex(ps, NotFolded).value;
      var after := CleanedUp(ps[w := ps[w].(winnings := Some(pot))]);
      ChipTotal(after) == ChipTotal(ps) && forall k :: 0 <= k < |after| ==> after[k].winnings.None?
  {
    var w := FirstIndex(ps, NotFolded).value;
    SumOfUpdate(ps, w, ps[w].(winnings := Some(pot)), Chips);
  }

  /** The effect of entering a phase (`on_enter` of its handler). */
  method OnEnter(phase: Phase, ctx: GameContext)
    modifies ctx
    ensures phase == Init ==> ctx.communityCards == [] && ctx.potTotal == 0 && ctx.currentBet == 0
    ensures phase == Flop ==> ctx.communityCards == FlopBoard(old(ctx.communityCards))
    ensures phase == Turn ==> ctx.communityCards == TurnBoard(old(ctx.communityCards))
    ensures phase == River ==> ctx.communityCards == RiverBoard(old(ctx.communityCards))
    ensures phase != Init ==> ctx.communityCards == old(ctx.communityCards) || phase in {Flop, Turn, River}
    ensures phase in {Flop, Turn, River, Showdown, Finished} ==> ChipTotal(ctx.players) == ChipTotal(old(ctx.players))
    ensures phase in {Flop, Turn, River, Showdown, Finished} ==> ctx.potTotal == old(ctx.potTotal) || phase == Showdown
    ensures phase == Init ==> ctx.activePlayerId == None && ctx.players == old(ctx.players)
    ensures phase != Init ==> ctx.activePlayerId == old(ctx.activePlayerId)
    ensures phase == PreFlop ==>
      && ctx.communityCards == old(ctx.communityCards)
      && (|old(ctx.players)| < 2 ==>
            ctx.players == DealtHoles(old(ctx.players)) && ctx.potTotal == old(ctx.potTotal) && ctx.currentBet == old(ctx.currentBet))
      && (|old(ctx.players)| >= 2 ==>
            && ctx.players == DealtHoles(Blinds(old(ctx.players), ctx.smallBlind, ctx.bigBlind))
            && ctx.potTotal == old(ctx.potTotal) + BlindPot(old(ctx.players), ctx.smallBlind, ctx.bigBlind)
            && ctx.currentBet == ctx.bigBlind)
    ensures phase == Flop ==> ctx.currentBet == 0 && ctx.players == BetsCleared(old(ctx.players))
    ensures phase in {Turn, River} ==> ctx.currentBet == 0 && ctx.players == old(ctx.players)
    ensures phase == Showdown ==>
      && ctx.communityCards == old(ctx.communityCards) && ctx.currentBet == old(ctx.currentBet)
      && (FirstIndex(old(ctx.players), NotFolded).None? ==>
            ctx.players == old(ctx.players) && ctx.potTotal == old(ctx.potTotal))
      && (FirstIndex(old(ctx.players), NotFolded).Some? ==>
            var w := FirstIndex(old(ctx.players), NotFolded).value;
            ctx.players == old(ctx.players)[w := old(ctx.players)[w].(winnings := Some(old(ctx.potTotal)))]
            && ctx.potTotal == 0)
    ensures phase == Finished ==>
      && ctx.players == CleanedUp(old(ctx.players))
      && ctx.communityCards == old(ctx.communityCards) && ctx.currentBet == old(ctx.currentBet)
  {
    match phase
    case Init => InitEnter(ctx);
    case PreFlop => PreFlopEnter(ctx);
    case Flop => FlopEnter(ctx);
    case Turn => TurnEnter(ctx);
    case River => RiverEnter(ctx);
    case Showdown => DetermineWinners(ctx);
    case Finished => CleanupHand(ctx);
  }

  // ---------------------------------------------------------------- player actions

  /** The event a handler emits for an action, given the line at the time. */
  function Response(phase: Phase, line: int, id: PlayerId, a: ActionRequest): GameEvent {
    var invalid := GameEvent(InvalidAction, None, None, phase);
    match phase
    case Init => invalid
    case Showdown => invalid
    case Finished => if a.kind == Some("start_new_hand") then GameEvent(HandStart, None, None, phase) else invalid
    case _ =>
      if a.kind == Some("fold") then GameEvent(PlayerFolded, Some(id), None, phase)
      else if a.kind == Some("call") then GameEvent(PlayerCalled, Some(id), Some(line), phase)
      else if a.kind == Some("raise") then
        var amount := if a.amount.Some? then a.amount.value else 0;
        if amount <= line then invalid else GameEvent(PlayerRaised, Some(id), Some(amount), phase)
      else if a.kind == Some("check") then
        if line > 0 then invalid else GameEvent(PlayerChecked, Some(id), None, phase)
      else invalid
  }

  /** What the handlers accept: INIT and SHOWDOWN nothing, FINISHED only a new hand, and the
    * street phases a fold, a call, a raise strictly above the line, or a check on a zero line.
    * A call reports the whole line as its amount, whatever the caller has already bet. */
  lemma ResponseFacts(phase: Phase, line: int, id: PlayerId, a: ActionRequest)
    ensures var e := Response(phase, line, id, a);
      && e.sourcePhase == phase
      && (phase == Init || phase == Showdown ==> e.eventType == InvalidAction)
      && (phase == Finished ==> (e.eventType == HandStart <==> a.kind == Some("start_new_hand")))
      && (e.eventType == PlayerRaised ==> a.kind == Some("raise") && e.amount.value > line && 1 <= Stage(phase) <= 4)
      && (e.eventType == PlayerChecked ==> line <= 0)
      && (e.eventType == PlayerCalled ==> e.amount == Some(line))
      && (1 <= Stage(phase) <= 4 ==>
            (e.eventType == InvalidAction <==>
              a.kind !in {Some("fold"), Some("call"), Some("raise"), Some("check")}
              || (a.kind == Some("raise") && (if a.amount.Some? then a.amount.value else 0) <= line)
              || (a.kind == Some("check") && line > 0)))
  {
  }

  /** `handle_player_action` of the handler for `phase`: a fold marks a known player folded, an
    * accepted raise moves the line; nothing else in the context changes, and no chips move. */
  method HandlePlayerAction(phase: Phase, ctx: GameContext, id: PlayerId, a: ActionRequest) returns (e: GameEvent)
    modifies ctx`players, ctx`currentBet
    ensures e == Response(phase, old(ctx.currentBet), id, a)
    ensures e.eventType == PlayerRaised ==> ctx.currentBet == e.amount.value
    ensures e.eventType != PlayerRaised ==> ctx.currentBet == old(ctx.currentBet)
    ensures e.eventType == PlayerFolded ==>
      ctx.players == seq(|old(ctx.players)|, k requires 0 <= k < |old(ctx.players)| =>
        if old(ctx.players)[k].id == id then old(ctx.players)[k].(status := Some("folded")) else old(ctx.players)[k])
    ensures e.eventType != PlayerFolded ==> ctx.players == old(ctx.players)
    ensures ChipTotal(ctx.players) == ChipTotal(old(ctx.players))
  {
    e := Response(phase, ctx.currentBet, id, a);
    if e.eventType == PlayerFolded {
      ghost var before := ctx.players;
      var i := 0;
      while i < |ctx.players|
        modifies ctx`players
        invariant 0 <= i <= |ctx.players| == |before|
        invariant forall k :: 0 <= k < i ==> ctx.players[k] == if before[k].id == id then before[k].(status := Some("folded")) else before[k]
        invariant forall k :: i <= k < |before| ==> ctx.players[k] == before[k]
      {
        if ctx.players[i].id == id {
          ctx.players := ctx.players[i := ctx.players[i].(status := Some("folded"))];
        }
        i := i + 1;
      }
      ChipsUnchanged(before, ctx.players);
    } else if e.eventType == PlayerRaised {
      ctx.currentBet := e.amount.value;
    }
  }
}
