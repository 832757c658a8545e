/**
 * The application controller over the first engine's state (`app_controller`): versioned
 * copy-on-write transactions (`@atomic`), the cached state snapshot, execution of a
 * validated action with the move to the next street, dealer rotation over the seats that
 * hold chips, the reset for a new hand, and the detailed menu of actions offered to a player.
 */
module AppController {
  import opened Common
  import opened Players
  import opened Phases
  import opened Seating
  import Core = CoreGameState
  import AV = ActionValidation
  import CGC = CoreGameController

  datatype AppError =
    | InvalidInput                     // `action_input.validate()` failed
    | NoSuchSeat                       // no player at the acting seat
    | Rejected                         // the action validator raised
    | PlayerRefused(reason: PlayerError)
    | TurnFailed                       // `advance_current_player` raised
    | DeckEmpty                        // `deal_card` on an exhausted deck
    | RoundFailed                      // `start_new_betting_round` raised on the next street
    | NoDealerCandidate                // nobody holds chips

  /**
   * What `copy.deepcopy(self.state)` saves: the table, the `last_raise_amount` attribute the
   * controller keeps on the state, and the remaining deck when there is one.
   */
  datatype AppValue = AppValue(table: Core.TableValue, lastRaiseAmount: int, deck: Option<seq<Card>>)

  /** A state snapshot for a viewer (None: the unrestricted view), stamped with its version. */
  datatype Snapshot = Snapshot(table: Core.TableValue, version: nat, viewer: Option<nat>)

  /** One entry of the detailed action menu: the action and its suggested amount. */
  datatype Offer = Offer(kind: AV.ActionType, amount: Option<int>)

  // ---------------------------------------------------------------------------------------
  // The action menu

  /**
   * `get_available_actions_detail`: nothing for a missing player or one who cannot act;
   * otherwise FOLD (unless ALL_IN), CHECK when nothing is owed or else the call capped at the
   * stack (labelled ALL_IN when it takes every chip), BET of the big blind when nothing is
   * owed or RAISE to current bet plus big blind when the stack covers it, and ALL_IN when the
   * stack exceeds what is owed.
   */
  function ActionsDetail(p: Option<Player>, currentBet: int, bigBlind: int): (r: seq<Offer>)
    ensures r == [] <==> p.None? || !CanAct(p.value)
    ensures p.Some? && CanAct(p.value) ==>
      var q := p.value;
      var owed := currentBet - q.currentBet;
      && r[0] == Offer(AV.Fold, None)
      && (Offer(AV.Check, None) in r <==> owed == 0)
      && (Offer(AV.Call, Some(owed)) in r <==> 0 < owed < q.chips)
      && (Offer(AV.Bet, Some(bigBlind)) in r <==> owed == 0 && q.chips >= bigBlind)
      && (Offer(AV.Raise, Some(currentBet + bigBlind)) in r <==> owed != 0 && q.chips >= currentBet + bigBlind)
      && Offer(AV.AllIn, Some(q.chips)) in r
  {
    if p.None? || !CanAct(p.value) then []
    else
      var q := p.value;
      var owed := currentBet - q.currentBet;
      var fold := if q.status == AllIn then [] else [Offer(AV.Fold, None)];
      var answer :=
        if owed == 0 then [Offer(AV.Check, None)]
        else
          var call := Min(owed, q.chips);
          if call <= 0 then []
          else if call == q.chips then [Offer(AV.AllIn, Some(call))]
          else [Offer(AV.Call, Some(call))];
      var opening :=
        if owed == 0 then (if q.chips >= bigBlind then [Offer(AV.Bet, Some(bigBlind))] else [])
        else if q.chips >= currentBet + bigBlind then [Offer(AV.Raise, Some(currentBet + bigBlind))]
        else [];
      var shove := if owed < q.chips then [Offer(AV.AllIn, Some(q.chips))] else [];
      fold + answer + opening + shove
  }

  /** Each offered action has one amount, whatever its label. */
  predicate AmountsFixed(r: seq<Offer>, call: int, bet: int, raise: int, allIn: int) {
    forall o :: o in r ==> AmountFixed(o, call, bet, raise, allIn)
  }

  /** The amount an offer of each label carries. */
  predicate AmountFixed(o: Offer, call: int, bet: int, raise: int, allIn: int) {
    && (o.kind == AV.Call ==> o.amount == Some(call))
    && (o.kind == AV.Bet ==> o.amount == Some(bet))
    && (o.kind == AV.Raise ==> o.amount == Some(raise))
    && (o.kind == AV.AllIn ==> o.amount == Some(allIn))
  }

  /** At most one offer of the given kind. */
  predicate AtMostOnce(r: seq<Offer>, kind: AV.ActionType) {
    forall j, k :: 0 <= j < k < |r| ==> r[j].kind != kind || r[k].kind != kind
  }

  /** No offer of the given kind. */
  predicate Without(r: seq<Offer>, kind: AV.ActionType) {
    forall o :: o in r ==> o.kind != kind
  }

  /** The menu for a player who can act, case by case on what is owed and what the stack covers. */
  lemma MenuParts(p: Player, currentBet: int, bigBlind: int)
    requires CanAct(p)
    ensures var r := ActionsDetail(Some(p), currentBet, bigBlind);
      var owed := currentBet - p.currentBet;
      var fold, allIn := Offer(AV.Fold, None), Offer(AV.AllIn, Some(p.chips));
      var bet, raise := Offer(AV.Bet, Some(bigBlind)), Offer(AV.Raise, Some(currentBet + bigBlind));
      var canRaise := p.chips >= currentBet + bigBlind;
      var check, call := Offer(AV.Check, None), Offer(AV.Call, Some(owed));
      && (owed == 0 && p.chips >= bigBlind ==> r == [fold, check, bet, allIn])
      && (owed == 0 && p.chips < bigBlind ==> r == [fold, check, allIn])
      && (owed != 0 && owed >= p.chips && canRaise ==> r == [fold, allIn, raise])
      && (owed != 0 && owed >= p.chips && !canRaise ==> r == [fold, allIn])
      && (0 < owed < p.chips && canRaise ==> r == [fold, call, raise, allIn])
      && (0 < owed < p.chips && !canRaise ==> r == [fold, call, allIn])
      && (owed < 0 && canRaise ==> r == [fold, raise, allIn])
      && (owed < 0 && !canRaise ==> r == [fold, allIn])
  {
  }

  /** Each action the menu offers comes with one amount: the call owed, the big blind, the minimum raise, or the whole stack. */
  lemma MenuAmounts(p: Player, currentBet: int, bigBlind: int)
    requires CanAct(p)
    ensures AmountsFixed(ActionsDetail(Some(p), currentBet, bigBlind),
                         currentBet - p.currentBet, bigBlind, currentBet + bigBlind, p.chips)
  {
    MenuParts(p, currentBet, bigBlind);
  }

  /** ALL_IN is offered once: as the call when the stack does not cover what is owed, otherwise as the shove. */
  lemma MenuOneAllIn(p: Player, currentBet: int, bigBlind: int)
    requires CanAct(p)
    ensures AtMostOnce(ActionsDetail(Some(p), currentBet, bigBlind), AV.AllIn)
  {
    MenuParts(p, currentBet, bigBlind);
  }

  /** CHECK and CALL are never offered together. */
  lemma MenuCheckOrCall(p: Player, currentBet: int, bigBlind: int)
    requires CanAct(p)
    ensures var r := ActionsDetail(Some(p), currentBet, bigBlind);
      Without(r, AV.Check) || Without(r, AV.Call)
  {
    MenuParts(p, currentBet, bigBlind);
    var r := ActionsDetail(Some(p), currentBet, bigBlind);
    if currentBet == p.currentBet {
      assert Without(r, AV.Call);
    } else {
      assert Without(r, AV.Check);
    }
  }

  // ---------------------------------------------------------------------------------------
  // Dealer rotation

  /** `sorted([p.seat_id for p in players if p.chips > 0])` */
  function DealerSeats(ps: seq<Player>): (r: seq<nat>)
    requires DistinctSeats(ps)
    ensures Increasing(r)
    ensures forall y :: y in r <==> exists k :: 0 <= k < |ps| && CGC.HasChips(ps[k]) && ps[k].seat == y
  {
    FilterSeats(ps, CGC.HasChips);
    SortedSeats(Filter(ps, CGC.HasChips))
  }

  /**
   * The seat `advance_dealer` hands the button to: the seat after the old dealer's among
   * those with chips, wrapping; the lowest such seat when the old dealer holds none;
   * nothing when nobody does.
   */
  function NextDealer(ps: seq<Player>, dealer: nat): Option<nat>
    requires DistinctSeats(ps)
  {
    RotateButton(DealerSeats(ps), dealer)
  }

  /** The rotation over the increasing list of chip seats. */
  function RotateButton(seats: seq<nat>, dealer: nat): Option<nat> {
    if seats == [] then None
    else match IndexOf(seats, dealer)
      case None => Some(seats[0])
      case Some(i) => Some(seats[(i + 1) % |seats|])
  }

  /**
   * The button goes to a player with chips, and to nobody only when nobody has chips; from a
   * dealer with chips it moves to the first other chip seat clockwise, or stays when the
   * dealer is the only one; from a broke dealer it goes to the lowest chip seat.
   */
  lemma NextDealerRotates(ps: seq<Player>, dealer: nat)
    requires DistinctSeats(ps)
    ensures var r := NextDealer(ps, dealer);
      && (r.None? <==> forall k :: 0 <= k < |ps| ==> ps[k].chips == 0)
      && (r.Some? ==> SeatIs(ps, r.value, CGC.HasChips))
      && (SeatIs(ps, dealer, CGC.HasChips) ==> r.Some? && FirstOrFallback(ps, dealer, CGC.HasChips, r.value))
      && (r.Some? && !SeatIs(ps, dealer, CGC.HasChips) ==>
            forall k :: 0 <= k < |ps| && CGC.HasChips(ps[k]) ==> r.value <= ps[k].seat)
  {
    var seats := DealerSeats(ps);
    NoChipSeats(ps);
    SeatIsListed(ps, dealer, CGC.HasChips);
    if seats != [] {
      match IndexOf(seats, dealer)
      case None =>
        LowestDealerSeat(ps, seats);
      case Some(i) =>
        DealerStep(ps, dealer, seats, i);
    }
  }

  /** There are no chip seats exactly when nobody has chips. */
  lemma NoChipSeats(ps: seq<Player>)
    requires DistinctSeats(ps)
    ensures DealerSeats(ps) == [] <==> forall k :: 0 <= k < |ps| ==> ps[k].chips == 0
  {
    var seats := DealerSeats(ps);
    if seats != [] {
      assert seats[0] in seats;
      var k :| 0 <= k < |ps| && CGC.HasChips(ps[k]) && ps[k].seat == seats[0];
      assert ps[k].chips != 0;
    } else {
      assert forall k :: 0 <= k < |ps| ==> ps[k].seat !in seats;
    }
  }

  /** Every player holding chips has their seat among the chip seats. */
  lemma ChipSeatsListed(ps: seq<Player>)
    requires DistinctSeats(ps)
    ensures forall k :: 0 <= k < |ps| && CGC.HasChips(ps[k]) ==> ps[k].seat in DealerSeats(ps)
  {
  }

  /** The first of the increasing chip seats is a chip seat no larger than any other. */
  lemma LowestDealerSeat(ps: seq<Player>, seats: seq<nat>)
    requires DistinctSeats(ps) && seats == DealerSeats(ps) && seats != []
    ensures SeatIs(ps, seats[0], CGC.HasChips)
    ensures forall k :: 0 <= k < |ps| && CGC.HasChips(ps[k]) ==> seats[0] <= ps[k].seat
  {
    SeatIsListed(ps, seats[0], CGC.HasChips);
    assert seats[0] in seats;
    forall k | 0 <= k < |ps| && CGC.HasChips(ps[k]) ensures seats[0] <= ps[k].seat {
      assert ps[k].seat in seats;
      var j :| 0 <= j < |seats| && seats[j] == ps[k].seat;
    }
  }

  /** One step after the old dealer in the increasing chip seats is the next chip seat clockwise. */
  lemma DealerStep(ps: seq<Player>, dealer: nat, seats: seq<nat>, i: nat)
    requires DistinctSeats(ps) && seats == DealerSeats(ps) && i < |seats| && seats[i] == dealer
    ensures SeatIs(ps, seats[(i + 1) % |seats|], CGC.HasChips)
    ensures FirstOrFallback(ps, dealer, CGC.HasChips, seats[(i + 1) % |seats|])
  {
    var n := |seats|;
    var next := seats[(i + 1) % n];
    assert next in seats;
    SeatIsListed(ps, next, CGC.HasChips);
    forall k | 0 <= k < |ps| && SeatIs(ps, ps[k].seat, CGC.HasChips) ensures ps[k].seat in seats {
      SeatIsListed(ps, ps[k].seat, CGC.HasChips);
    }
    if n == 1 {
      forall k | 0 <= k < |ps| && ps[k].seat != dealer ensures !SeatIs(ps, ps[k].seat, CGC.HasChips) {
        SeatIsListed(ps, ps[k].seat, CGC.HasChips);
      }
    } else {
      ScanIsClockwise(ps, seats, dealer, i, CGC.HasChips, Some(1));
    }
  }

  // ---------------------------------------------------------------------------------------
  // Executing a validated action

  /**
   * The acting player's part of `_execute_validated_action`, before the turn moves on: FOLD
   * folds; CHECK changes nothing; CALL, BET and RAISE carry the player's new TOTAL bet, so
   * the player puts in the difference to their own bet and a larger total becomes the
   * standing bet (a RAISE also records the raiser and the raise increment); ALL_IN puts in
   * every chip and does the same with the resulting total.
   */
  function Applied(v: AppValue, i: nat, kind: AV.ActionType, amount: int): (r: Result<AppValue, PlayerError>)
    requires i < |v.table.players|
    ensures r.Ok? ==> OnlyActor(v, i, r.value)
    ensures kind == AV.Check ==> r == Ok(v)
  {
    match kind
    case Fold => FoldedAt(v, i)
    case Check => Ok(v)
    case AllIn => AllInAt(v, i)
    case _ => PaidTo(v, i, kind == AV.Raise, amount)
  }

  /** FOLD: only a player still in the hand may fold, and folding moves no chips. */
  function FoldedAt(v: AppValue, i: nat): (r: Result<AppValue, PlayerError>)
    requires i < |v.table.players|
    ensures r.Ok? <==> InHand(v.table.players[i])
    ensures r.Err? ==> r.error == CannotFold
    ensures r.Ok? ==> OnlyActor(v, i, r.value)
    ensures r.Ok? ==> r.value == v.(table := v.table.(players := v.table.players[i := v.table.players[i].(status := Folded)]))
  {
    match Fold(v.table.players[i])
    case Err(e) => Err(e)
    case Ok(q) => Ok(WithActor(v, i, q))
  }

  /**
   * CALL, BET or RAISE to the total `amount`: a total below the player's own bet is a
   * negative bet and raises, as does a player who cannot act; otherwise the player's bet
   * becomes `amount` (capped at their stack), the standing bet becomes `amount` when that is
   * larger, and only a raise above the standing bet records the raiser and the increment.
   */
  function PaidTo(v: AppValue, i: nat, raise: bool, amount: int): (r: Result<AppValue, PlayerError>)
    requires i < |v.table.players|
    ensures var p := v.table.players[i];
      && (amount < p.currentBet ==> r == Err(NegativeAmount))
      && (amount >= p.currentBet && !CanAct(p) ==> r == Err(CannotAct))
      && (amount >= p.currentBet && CanAct(p) ==> r.Ok?)
    ensures r.Ok? ==> OnlyActor(v, i, r.value)
    ensures r.Ok? ==>
      var p := v.table.players[i];
      && r.value.table.players[i].currentBet == Min(amount, Stack(p))
      && r.value.table.currentBet == (if amount > v.table.currentBet then amount else v.table.currentBet)
      && (if raise && amount > v.table.currentBet
          then r.value.lastRaiseAmount == amount - v.table.currentBet && r.value.table.lastRaiser == Some(p.seat)
          else r.value.lastRaiseAmount == v.lastRaiseAmount && r.value.table.lastRaiser == v.table.lastRaiser)
  {
    var p := v.table.players[i];
    match Bet(p, amount - p.currentBet)
    case Err(e) => Err(e)
    case Ok(b) => Ok(LineTo(WithActor(v, i, b.0), amount, p.seat, raise))
  }

  /**
   * ALL_IN: a player who can act puts in every chip; a resulting total above the standing bet
   * becomes the standing bet and records the raiser and the increment.
   */
  function AllInAt(v: AppValue, i: nat): (r: Result<AppValue, PlayerError>)
    requires i < |v.table.players|
    ensures r.Ok? <==> CanAct(v.table.players[i])
    ensures r.Ok? ==> OnlyActor(v, i, r.value)
    ensures r.Ok? ==>
      var p := v.table.players[i];
      && r.value.table.players[i].chips == 0 && r.value.table.players[i].currentBet == Stack(p)
      && r.value.table.players[i].status == AllIn
      && (if Stack(p) > v.table.currentBet
          then && r.value.table.currentBet == Stack(p) && r.value.table.lastRaiser == Some(p.seat)
               && r.value.lastRaiseAmount == Stack(p) - v.table.currentBet
          else && r.value.table.currentBet == v.table.currentBet && r.value.lastRaiseAmount == v.lastRaiseAmount
               && r.value.table.lastRaiser == v.table.lastRaiser)
  {
    var p := v.table.players[i];
    match Bet(p, p.chips)
    case Err(e) => Err(e)
    case Ok(b) => Ok(LineTo(WithActor(v, i, b.0), b.0.currentBet, p.seat, true))
  }

  /**
   * `w` differs from `v` at most in player `i`, the standing bet (never lowered) and the raise
   * record; player `i` keeps their seat, and no chip is created or lost.
   */
  predicate OnlyActor(v: AppValue, i: nat, w: AppValue)
    requires i < |v.table.players|
  {
    var t := w.table;
    && t == v.table.(players := t.players, currentBet := t.currentBet, lastRaiser := t.lastRaiser)
    && w.deck == v.deck
    && |t.players| == |v.table.players|
    && (forall k :: 0 <= k < |t.players| && k != i ==> t.players[k] == v.table.players[k])
    && t.players[i].seat == v.table.players[i].seat
    && TotalChips(t.players) + TotalBets(t.players) == TotalChips(v.table.players) + TotalBets(v.table.players)
    && t.currentBet >= v.table.currentBet
  }

  /** Player `i` replaced by `q`, who holds the same stack at the same seat. */
  function WithActor(v: AppValue, i: nat, q: Player): (w: AppValue)
    requires i < |v.table.players| && Stack(q) == Stack(v.table.players[i]) && q.seat == v.table.players[i].seat
    ensures OnlyActor(v, i, w) && w.table.players[i] == q
    ensures w == v.(table := v.table.(players := v.table.players[i := q]))
  {
    ChipsAndBetsAfterUpdate(v.table.players, i, q);
    v.(table := v.table.(players := v.table.players[i := q]))
  }

  /**
   * The standing bet after a player's bet reaches `total`: raised to `total` when that is
   * larger, with the raiser and the increment recorded when `record` is set.
   */
  function LineTo(w: AppValue, total: int, seat: nat, record: bool): (x: AppValue)
    ensures x.table == w.table.(currentBet := x.table.currentBet, lastRaiser := x.table.lastRaiser) && x.deck == w.deck
    ensures x.table.currentBet == if total > w.table.currentBet then total else w.table.currentBet
    ensures if record && total > w.table.currentBet
            then x.lastRaiseAmount == total - w.table.currentBet && x.table.lastRaiser == Some(seat)
            else x.lastRaiseAmount == w.lastRaiseAmount && x.table.lastRaiser == w.table.lastRaiser
  {
    if total <= w.table.currentBet then w
    else if record then AppValue(w.table.(currentBet := total, lastRaiser := Some(seat)), total - w.table.currentBet, w.deck)
    else w.(table := w.table.(currentBet := total))
  }

  /** How `_deal_flop`, `_deal_turn` and `_deal_river` deal: the board size each expects and the cards each adds. */
  function StreetDeal(p: Phase): (r: Option<(nat, nat)>)
    ensures r.Some? <==> p == Flop || p == Turn || p == River
    ensures r.Some? ==> r.value.0 + r.value.1 == Core.ExpectedBoard(p).value
  {
    match p
    case Flop => Some((0, 3))
    case Turn => Some((3, 1))
    case River => Some((4, 1))
    case _ => None
  }

  /**
   * The board as `_deal_flop`, `_deal_turn` or `_deal_river` leaves it: on a dealing street,
   * with a deck and the board at the size the street expects, one card is burned and the
   * street's cards are dealt from the front of the deck; a deck too short to do so raises.
   */
  function BoardDealt(w: AppValue): Result<AppValue, AppError> {
    var deal := StreetDeal(w.table.phase);
    if deal.None? || w.deck.None? || |w.table.communityCards| != deal.value.0 then Ok(w)
    else if |w.deck.value| < deal.value.1 + 1 then Err(DeckEmpty)
    else
      var cards := w.deck.value;
      Ok(w.(table := w.table.(communityCards := w.table.communityCards + cards[1..deal.value.1 + 1]),
            deck := Some(cards[deal.value.1 + 1..])))
  }

  /**
   * `start_new_betting_round()` after the flop: the street's bet, raiser, count and every
   * bet are cleared; with nobody in the hand the turn stays, otherwise it goes to the first
   * player after the button who can act (the button itself when nobody else can), and a
   * button seat that is out of the hand raises.
   */
  predicate StreetOpened(w: AppValue, err: Option<AppError>, x: AppValue) {
    var t := w.table;
    var ps := ResetBets(t.players);
    && x == w.(table := t.(currentBet := 0, lastRaiser := None, streetIndex := 0, players := ps,
                           currentPlayer := x.table.currentPlayer))
    && (err.Some? ==> err.value == RoundFailed && x.table.currentPlayer == t.currentPlayer)
    && (CountIf(ps, NotOut) == 0 ==> err.None? && x.table.currentPlayer == t.currentPlayer)
    && (CountIf(ps, NotOut) > 0 ==> (err.None? <==> SeatIs(ps, t.dealerPosition, NotOut)))
    && (CountIf(ps, NotOut) > 0 && err.None? ==> FirstOrFallback(ps, t.dealerPosition, CanAct, x.table.currentPlayer))
  }

  /**
   * `_advance_to_next_phase` on a table: the street's bets go into the pot and the phase
   * steps on; the street's board cards are dealt, a short deck raising with the bets already
   * collected; then, short of SHOWDOWN, a new betting round opens.
   */
  predicate Advanced(w: AppValue, err: Option<AppError>, x: AppValue) {
    var t := w.table;
    var c := w.(table := t.(pot := t.pot + TotalBets(t.players), players := ResetBets(t.players),
                            phase := NextInOrder(t.phase)));
    var d := BoardDealt(c);
    if d.Err? then err == Some(d.error) && x == c
    else if c.table.phase == Showdown then err.None? && x == d.value
    else StreetOpened(d.value, err, x)
  }

  /** `_check_and_advance_game_state` on a table: the next street once the betting round is complete. */
  predicate Checked(w: AppValue, err: Option<AppError>, x: AppValue) {
    if Core.RoundComplete(w.table) then Advanced(w, err, x) else err.None? && x == w
  }

  /** `advance_current_player` raises: somebody is ACTIVE but the current seat is not at the table. */
  predicate TurnBlocked(a: AppValue) {
    ActivePlayers(a.table.players) != [] && !SeatTaken(a.table.players, a.table.currentPlayer)
  }

  /**
   * The turn after an action: it passes to the first player clockwise who can act when it
   * moves; it stays, with nothing changed, only when nobody is ACTIVE or nobody else at the
   * table can act.
   */
  predicate TurnPassed(a: AppValue, moved: bool, x: AppValue) {
    && x == a.(table := a.table.(currentPlayer := x.table.currentPlayer))
    && (moved ==> FirstClockwise(a.table.players, a.table.currentPlayer, CanAct, x.table.currentPlayer))
    && (!moved ==>
          && x == a
          && (ActivePlayers(a.table.players) == [] || !OtherSeatIs(a.table.players, a.table.currentPlayer, CanAct)))
  }

  /**
   * A successful `execute_player_action` on a table: the action as `Applied` states it, the
   * turn passed on (`moved`), then the street check, which raised nothing.
   */
  ghost predicate ActionTaken(w: AppValue, i: nat, kind: AV.ActionType, amount: int, moved: bool, x: AppValue)
    requires i < |w.table.players|
  {
    var a := Applied(w, i, kind, amount);
    a.Ok? && exists mid :: TurnPassed(a.value, moved, mid) && Checked(mid, None, x)
  }

  /** `@atomic` kept the version: the cached snapshot, when it has the current version, shows the current table. */
  predicate CacheFits(lastSnapshot: Option<Snapshot>, lastSnapshotVersion: int, version: nat, table: Core.TableValue) {
    && lastSnapshotVersion <= version
    && (lastSnapshotVersion == version ==> lastSnapshot == Some(Snapshot(table, version, None)))
  }

  class PokerController {
    const state: Core.GameState
    /** The `last_raise_amount` attribute the controller sets on the state. */
    var lastRaiseAmount: int
    /** `state.deck`: the cards left, or None before a deck exists. */
    var deck: Option<seq<Card>>
    var version: nat
    var lastSnapshot: Option<Snapshot>
    var lastSnapshotVersion: int

    /** The state as `@atomic` saves it. */
    function Current(): AppValue
      reads this, state
    {
      AppValue(state.Value(), lastRaiseAmount, deck)
    }

    ghost predicate Valid()
      reads this, state
    {
      state.Valid() && CacheFits(lastSnapshot, lastSnapshotVersion, version, state.Value())
    }

    /** A controller at version 0 with an empty snapshot cache. */
    constructor (state: Core.GameState)
      requires state.Valid()
      ensures Valid() && this.state == state && version == 0 && lastSnapshot.None?
      ensures lastRaiseAmount == 0 && deck.None?
    {
      this.state := state;
      lastRaiseAmount := 0;
      deck := None;
      version := 0;
      lastSnapshot := None;
      lastSnapshotVersion := -1;
    }

    /** `is_hand_over`: the hand is over exactly at SHOWDOWN. */
    function IsHandOver(): (r: bool)
      reads this, state
      ensures r <==> state.phase == Showdown
    {
      state.phase == Showdown
    }

    /**
     * `get_state_snapshot`: None exactly when the caller already knows the current version;
     * otherwise a snapshot of the current table at the current version, the unrestricted
     * one served from the cache when the cache has the current version. Because every
     * successful transaction moves the version on, a cached snapshot is never stale.
     */
    method GetStateSnapshot(viewer: Option<nat>, lastKnown: Option<int>) returns (r: Option<Snapshot>)
      requires Valid()
      modifies this
      ensures Valid()
      ensures Current() == old(Current()) && version == old(version)
      ensures r.None? <==> lastKnown == Some(version)
      ensures r.Some? ==> r.value == Snapshot(state.Value(), version, viewer)
    {
      if lastKnown.Some? && lastKnown.value == version {
        return None;
      }
      if viewer.None? && lastSnapshot.Some? && lastSnapshotVersion == version {
        return lastSnapshot;
      }
      var snapshot := Snapshot(state.Value(), version, viewer);
      if viewer.None? {
        lastSnapshot := Some(snapshot);
        lastSnapshotVersion := version;
      }
      return Some(snapshot);
    }

    /**
     * `execute_player_action` under `@atomic`: on any failure the state and the version are
     * put back as they were; on success the version goes up by exactly one and the chips on
     * the table, in front of the players and in the pot, add up as before.
     */
    method ExecutePlayerAction(inputValid: bool, seat: nat, verdict: Option<(AV.ActionType, int)>)
      returns (r: Result<bool, AppError>)
      requires Valid()
      modifies this, state
      ensures Valid()
      ensures r.Err? ==> Current() == old(Current()) && version == old(version)
      ensures r.Ok? ==> version == old(version) + 1
      ensures r.Ok? ==>
        TotalChips(state.players) + TotalBets(state.players) + state.pot
        == old(TotalChips(state.players) + TotalBets(state.players) + state.pot)
      ensures r.Ok? ==> inputValid && SeatTaken(old(state.players), seat) && verdict.Some?
      ensures var i := IndexOfSeat(old(state.players), seat);
        r.Ok? ==>
          && i.Some? && verdict.Some?
          && ActionTaken(old(Current()), i.value, verdict.value.0, verdict.value.1, r.value, Current())
      ensures var i := IndexOfSeat(old(state.players), seat);
        inputValid && i.Some? && verdict.Some? ==>
          var a := Applied(old(Current()), i.value, verdict.value.0, verdict.value.1);
          && (a.Err? ==> r == Err(PlayerRefused(a.error)))
          && (r == Err(TurnFailed) <==> a.Ok? && TurnBlocked(a.value))
    {
      var saved := Current();
      var savedVersion := version;
      r := PerformAction(inputValid, seat, verdict);
      if r.Err? {
        state.Restore(saved.table);
        lastRaiseAmount, deck, version := saved.lastRaiseAmount, saved.deck, savedVersion;
        return;
      }
      version := version + 1;
    }

    /** The body of `execute_player_action`: checks, the action, then the street check. */
    method PerformAction(inputValid: bool, seat: nat, verdict: Option<(AV.ActionType, int)>)
      returns (r: Result<bool, AppError>)
      requires state.Valid()
      modifies this`lastRaiseAmount, this`deck, state
      ensures state.Valid()
      ensures !inputValid ==> r == Err(InvalidInput)
      ensures inputValid && !SeatTaken(old(state.players), seat) ==> r == Err(NoSuchSeat)
      ensures inputValid && SeatTaken(old(state.players), seat) && verdict.None? ==> r == Err(Rejected)
      ensures r.Ok? ==> inputValid && SeatTaken(old(state.players), seat) && verdict.Some?
      ensures r.Ok? ==>
        TotalChips(state.players) + TotalBets(state.players) + state.pot
        == old(TotalChips(state.players) + TotalBets(state.players) + state.pot)
      ensures var i := IndexOfSeat(old(state.players), seat);
        inputValid && i.Some? && verdict.Some? ==>
          var a := Applied(old(Current()), i.value, verdict.value.0, verdict.value.1);
          && (a.Err? ==> r == Err(PlayerRefused(a.error)))
          && (r == Err(TurnFailed) <==> a.Ok? && TurnBlocked(a.value))
          && (r.Ok? ==> ActionTaken(old(Current()), i.value, verdict.value.0, verdict.value.1, r.value, Current()))
    {
      if !inputValid {
        return Err(InvalidInput);
      }
      var i := IndexOfSeat(state.players, seat);
      if i.None? {
        return Err(NoSuchSeat);
      }
      if verdict.None? {
        return Err(Rejected);
      }
      r := ExecuteValidatedAction(i.value, verdict.value.0, verdict.value.1);
      if r.Err? {
        return;
      }
      ghost var mid := Current();
      var err := CheckAndAdvance();
      if err.Some? {
        return Err(err.value);
      }
      assert TurnPassed(Applied(old(Current()), i.value, verdict.value.0, verdict.value.1).value, r.value, mid);
    }

    /**
     * `_execute_validated_action`: the acting player's action as `Applied` states it, then the
     * turn passes clockwise to the next player who can act (Ok(true)), or stays where it is
     * when nobody else can (Ok(false), the end of the betting round).
     */
    method ExecuteValidatedAction(i: nat, kind: AV.ActionType, amount: int) returns (r: Result<bool, AppError>)
      requires state.Valid() && i < |state.players|
      modifies this`lastRaiseAmount, state
      ensures state.Valid()
      ensures var a := Applied(old(Current()), i, kind, amount);
        && (a.Err? ==> r == Err(PlayerRefused(a.error)))
        && (a.Ok? && r.Err? ==> r.error == TurnFailed)
        && (r == Err(TurnFailed) <==> a.Ok? && TurnBlocked(a.value))
        && (r.Ok? ==> a.Ok? && Current() == a.value.(table := a.value.table.(currentPlayer := state.currentPlayer)))
      ensures r == Ok(true) ==> FirstClockwise(state.players, old(state.currentPlayer), CanAct, state.currentPlayer)
      ensures r == Ok(false) ==> state.currentPlayer == old(state.currentPlayer)
      ensures r.Ok? ==> TurnPassed(Applied(old(Current()), i, kind, amount).value, r.value, Current())
    {
      var refused := ApplyAction(i, kind, amount);
      if refused.Some? {
        return Err(PlayerRefused(refused.value));
      }
      SameSeatsDistinct(old(state.players), state.players);
      var moved := state.AdvanceCurrentPlayer();
      if moved.Err? {
        return Err(TurnFailed);
      }
      return Ok(moved.value);
    }

    /** The acting player's action and the standing bet it sets, as `Applied` states them. */
    method ApplyAction(i: nat, kind: AV.ActionType, amount: int) returns (refused: Option<PlayerError>)
      requires i < |state.players|
      modifies this`lastRaiseAmount, state
      ensures var a := Applied(old(Current()), i, kind, amount);
        && (refused.Some? <==> a.Err?)
        && (refused.Some? ==> refused.value == a.error)
        && (refused.None? ==> Current() == a.value)
        && (refused.Some? ==> Current() == old(Current()))
    {
      if kind == AV.Fold {
        refused := Fold_(i);
      } else if kind == AV.AllIn {
        refused := AllIn_(i);
      } else if kind != AV.Check {
        refused := Pay(i, kind == AV.Raise, amount);
      } else {
        refused := None;
      }
    }

    /** The FOLD branch: `player.fold()`. */
    method Fold_(i: nat) returns (refused: Option<PlayerError>)
      requires i < |state.players|
      modifies state
      ensures var a := FoldedAt(old(Current()), i);
        && (refused.Some? <==> a.Err?) && (refused.Some? ==> refused.value == a.error)
        && (refused.None? ==> Current() == a.value) && (refused.Some? ==> Current() == old(Current()))
    {
      var f := Fold(state.players[i]);
      if f.Err? {
        return Some(f.error);
      }
      state.players := state.players[i := f.value];
      return None;
    }

    /** The ALL_IN branch: `player.bet(player.chips)`, then the standing bet. */
    method AllIn_(i: nat) returns (refused: Option<PlayerError>)
      requires i < |state.players|
      modifies this`lastRaiseAmount, state
      ensures var a := AllInAt(old(Current()), i);
        && (refused.Some? <==> a.Err?) && (refused.Some? ==> refused.value == a.error)
        && (refused.None? ==> Current() == a.value) && (refused.Some? ==> Current() == old(Current()))
    {
      var p := state.players[i];
      var b := Bet(p, p.chips);
      if b.Err? {
        return Some(b.error);
      }
      state.players := state.players[i := b.value.0];
      var total := b.value.0.currentBet;
      if total > state.currentBet {
        lastRaiseAmount := total - state.currentBet;
        state.lastRaiser := Some(p.seat);
        state.currentBet := total;
      }
      return None;
    }

    /** The CALL, BET and RAISE branch: `player.bet(amount - player.current_bet)`, then the standing bet. */
    method Pay(i: nat, raise: bool, amount: int) returns (refused: Option<PlayerError>)
      requires i < |state.players|
      modifies this`lastRaiseAmount, state
      ensures var a := PaidTo(old(Current()), i, raise, amount);
        && (refused.Some? <==> a.Err?) && (refused.Some? ==> refused.value == a.error)
        && (refused.None? ==> Current() == a.value) && (refused.Some? ==> Current() == old(Current()))
    {
      var p := state.players[i];
      var b := Bet(p, amount - p.currentBet);
      if b.Err? {
        return Some(b.error);
      }
      state.players := state.players[i := b.value.0];
      if amount > state.currentBet {
        if raise {
          lastRaiseAmount := amount - state.currentBet;
          state.lastRaiser := Some(p.seat);
        }
        state.currentBet := amount;
      }
      return None;
    }

    /** `_check_and_advance_game_state`: the next street opens once the betting round is complete. */
    method CheckAndAdvance() returns (err: Option<AppError>)
      requires state.Valid()
      modifies this`deck, state
      ensures state.Valid()
      ensures !old(state.IsBettingRoundComplete()) ==> err.None? && Current() == old(Current())
      ensures Checked(old(Current()), err, Current())
      ensures err.None? ==>
        TotalChips(state.players) + TotalBets(state.players) + state.pot
        == old(TotalChips(state.players) + TotalBets(state.players) + state.pot)
    {
      if state.IsBettingRoundComplete() {
        err := AdvanceToNextPhase();
      } else {
        err := None;
      }
    }

    /**
     * `_advance_to_next_phase`: the street's bets go into the pot, the phase steps on, the
     * street's board cards are dealt, and a new betting round opens unless the hand has
     * reached SHOWDOWN.
     */
    method AdvanceToNextPhase() returns (err: Option<AppError>)
      requires state.Valid()
      modifies this`deck, state
      ensures state.Valid()
      ensures err.None? ==>
        && state.phase == NextInOrder(old(state.phase))
        && state.pot == old(state.pot) + TotalBets(old(state.players))
        && TotalBets(state.players) == 0
        && TotalChips(state.players) == TotalChips(old(state.players))
        && (state.phase != Showdown ==> state.currentBet == 0 && state.lastRaiser.None? && state.streetIndex == 0)
      ensures Advanced(old(Current()), err, Current())
    {
      ghost var w := Current();
      state.CollectBetsToPot();
      Core.ResetBetsFacts(old(state.players));
      state.AdvancePhase();
      assert Current() == w.(table := w.table.(pot := w.table.pot + TotalBets(w.table.players),
        players := ResetBets(w.table.players), phase := NextInOrder(w.table.phase)));
      err := DealStreet();
      if err.Some? {
        return;
      }
      if state.phase != Showdown {
        ghost var collected := state.players;
        err := OpenStreet();
        Core.ResetBetsFacts(collected);
      }
    }

    /** `start_new_betting_round()` after the flop, its failure reported as RoundFailed. */
    method OpenStreet() returns (err: Option<AppError>)
      requires state.Valid() && state.phase != PreFlop
      modifies state
      ensures state.Valid()
      ensures StreetOpened(old(Current()), err, Current())
    {
      var e := state.StartNewBettingRound(None);
      err := if e.Some? then Some(RoundFailed) else None;
    }

    /**
     * The street's board cards: on the flop, turn or river, with a deck and the board at the
     * size the street expects, one card is burned and the street's cards are dealt from the
     * front of the deck; a deck too short to do so raises.
     */
    method DealStreet() returns (err: Option<AppError>)
      requires state.Valid()
      modifies this`deck, state
      ensures state.Valid()
      ensures state.Value() == old(state.Value()).(communityCards := state.communityCards)
      ensures var deal := StreetDeal(old(state.phase));
        if deal.None? || old(deck).None? || |old(state.communityCards)| != deal.value.0 then
          err.None? && deck == old(deck) && state.communityCards == old(state.communityCards)
        else
          && (err.Some? <==> |old(deck).value| < deal.value.1 + 1)
          && (err.Some? ==> err.value == DeckEmpty)
          && (err.None? ==>
                && state.communityCards == old(state.communityCards) + old(deck).value[1..deal.value.1 + 1]
                && deck == Some(old(deck).value[deal.value.1 + 1..]))
      ensures var d := BoardDealt(old(Current()));
        && (d.Ok? <==> err.None?)
        && (d.Ok? ==> Current() == d.value)
        && (d.Err? ==> err == Some(d.error) && Current() == old(Current()))
    {
      var deal := StreetDeal(state.phase);
      if deal.None? || deck.None? || |state.communityCards| != deal.value.0 {
        return None;
      }
      var cards := deck.value;
      var count := deal.value.1;
      if |cards| < count + 1 {
        return Some(DeckEmpty);
      }
      state.communityCards := state.communityCards + cards[1..count + 1];
      deck := Some(cards[count + 1..]);
      return None;
    }

    /**
     * `advance_dealer` under `@atomic`: the old dealer's flag is cleared, and the button
     * moves to `NextDealer`, whose player is flagged; with nobody holding chips the answer is
     * an error, the cleared flag stays and the button does not move. The error is a result,
     * not an exception, so the version goes up by one either way.
     */
    method AdvanceDealer() returns (r: Result<nat, AppError>)
      requires Valid()
      modifies this, state
      ensures Valid()
      ensures version == old(version) + 1
      ensures lastRaiseAmount == old(lastRaiseAmount) && deck == old(deck)
      ensures state.Value() == old(state.Value()).(players := state.players, dealerPosition := state.dealerPosition)
      ensures var next := NextDealer(old(state.players), old(state.dealerPosition));
        var cleared := DealerFlag(old(state.players), old(state.dealerPosition), false);
        && (r.Err? <==> next.None?)
        && (r.Err? ==> r.error == NoDealerCandidate && state.players == cleared
                       && state.dealerPosition == old(state.dealerPosition))
        && (r.Ok? ==> r.value == next.value && state.dealerPosition == next.value
                      && state.players == DealerFlag(cleared, next.value, true))
    {
      var old_dealer := state.dealerPosition;
      state.players := DealerFlag(state.players, old_dealer, false);
      SameSeatsDistinct(old(state.players), state.players);
      var next := NextDealer(state.players, old_dealer);
      assert next == NextDealer(old(state.players), old_dealer) by {
        DealerFlagKeepsChipSeats(old(state.players), old_dealer, false, old_dealer);
      }
      if next.None? {
        r := Err(NoDealerCandidate);
      } else {
        state.dealerPosition := next.value;
        state.players := DealerFlag(state.players, next.value, true);
        SameSeatsDistinct(old(state.players), state.players);
        r := Ok(next.value);
      }
      version := version + 1;
    }

    /**
     * `_reset_for_new_hand`: PRE_FLOP with an empty board, no pot, no standing bet, raiser or
     * raise increment; every player with chips is reset for the new hand while broke players
     * stay as they are; a missing deck is replaced by `freshDeck` (the shuffled new deck).
     */
    method ResetForNewHand(freshDeck: seq<Card>)
      requires state.Valid()
      modifies this`lastRaiseAmount, this`deck, state
      ensures state.Valid()
      ensures state.Value() == old(state.Value()).(phase := PreFlop, communityCards := [], pot := 0, currentBet := 0,
                                                   lastRaiser := None, players := ResetHolders(old(state.players)))
      ensures lastRaiseAmount == 0
      ensures deck == if old(deck).None? then Some(freshDeck) else old(deck)
    {
      state.phase := PreFlop;
      state.communityCards := [];
      state.pot := 0;
      state.currentBet := 0;
      state.lastRaiser := None;
      lastRaiseAmount := 0;
      var i := 0;
      while i < |state.players|
        modifies state
        invariant 0 <= i <= |state.players| == |old(state.players)|
        invariant forall k :: 0 <= k < i ==> state.players[k] == HolderReset(old(state.players)[k])
        invariant forall k :: i <= k < |state.players| ==> state.players[k] == old(state.players)[k]
        invariant state.Value() == old(state.Value()).(phase := PreFlop, communityCards := [], pot := 0, currentBet := 0,
                                                       lastRaiser := None, players := state.players)
      {
        if state.players[i].chips > 0 {
          state.players := state.players[i := Players.ResetForNewHand(state.players[i])];
        }
        i := i + 1;
      }
      assert state.players == ResetHolders(old(state.players));
      ResetHoldersFacts(old(state.players));
      if deck.None? {
        deck := Some(freshDeck);
      }
    }
  }

  /** `get_player_by_seat(seat).is_dealer = flag` when the seat is taken; otherwise nothing changes. */
  function DealerFlag(ps: seq<Player>, seat: nat, flag: bool): (r: seq<Player>)
    ensures SameSeats(ps, r)
    ensures forall k :: 0 <= k < |ps| ==> r[k] == ps[k] || (ps[k].seat == seat && r[k] == ps[k].(isDealer := flag))
    ensures SeatTaken(ps, seat) ==> PlayerAt(r, seat).Some? && PlayerAt(r, seat).value.isDealer == flag
  {
    match IndexOfSeat(ps, seat)
    case None => ps
    case Some(i) => ps[i := ps[i].(isDealer := flag)]
  }

  /** Setting a dealer flag leaves chips, and so the rotation from any dealer, unchanged. */
  lemma DealerFlagKeepsChipSeats(ps: seq<Player>, seat: nat, flag: bool, dealer: nat)
    requires DistinctSeats(ps)
    ensures DistinctSeats(DealerFlag(ps, seat, flag))
    ensures NextDealer(DealerFlag(ps, seat, flag), dealer) == NextDealer(ps, dealer)
  {
    var q := DealerFlag(ps, seat, flag);
    SameSeatsDistinct(ps, q);
    FlagFilter(ps, q);
    FilterSeats(ps, CGC.HasChips);
    FilterSeats(q, CGC.HasChips);
    SameSortedSeats(Filter(ps, CGC.HasChips), Filter(q, CGC.HasChips));
  }

  /** The sorted seats depend on the seat list alone. */
  lemma SameSortedSeats(a: seq<Player>, b: seq<Player>)
    requires DistinctSeats(a) && DistinctSeats(b) && Seats(a) == Seats(b)
    ensures SortedSeats(a) == SortedSeats(b)
  {
  }

  /** Two tables that differ only in flags other than chips filter to the same chip seats. */
  lemma {:induction false} FlagFilter(ps: seq<Player>, q: seq<Player>)
    requires |q| == |ps|
    requires forall k :: 0 <= k < |ps| ==> q[k] == ps[k] || q[k] == ps[k].(isDealer := q[k].isDealer)
    ensures Seats(Filter(q, CGC.HasChips)) == Seats(Filter(ps, CGC.HasChips))
  {
    if ps != [] {
      var n := |ps| - 1;
      FlagFilter(ps[..n], q[..n]);
    }
  }

  /** A player with chips reset for the new hand; a broke player untouched. */
  function HolderReset(p: Player): Player {
    if p.chips > 0 then Players.ResetForNewHand(p) else p
  }

  /** The player loop of `_reset_for_new_hand`. */
  function ResetHolders(ps: seq<Player>): (r: seq<Player>)
    ensures |r| == |ps| && forall k :: 0 <= k < |ps| ==> r[k] == HolderReset(ps[k])
  {
    seq(|ps|, k requires 0 <= k < |ps| => HolderReset(ps[k]))
  }

  /**
   * After the reset every seat is kept, no chip moves, every player with chips is ACTIVE
   * with no bet and no cards, and a broke player keeps their status and bet.
   */
  lemma ResetHoldersFacts(ps: seq<Player>)
    ensures SameSeats(ps, ResetHolders(ps))
    ensures DistinctSeats(ps) ==> DistinctSeats(ResetHolders(ps))
    ensures TotalChips(ResetHolders(ps)) == TotalChips(ps)
    ensures forall k :: 0 <= k < |ps| && ps[k].chips > 0 ==>
      var q := ResetHolders(ps)[k]; q.status == Active && q.currentBet == 0 && q.holeCards == []
  {
    ResetHoldersChips(ps);
    if DistinctSeats(ps) {
      SameSeatsDistinct(ps, ResetHolders(ps));
    }
  }

  /** The reset moves no chips. */
  lemma {:induction false} ResetHoldersChips(ps: seq<Player>)
    ensures TotalChips(ResetHolders(ps)) == TotalChips(ps)
  {
    if ps != [] {
      var r := ResetHolders(ps);
      var n := |ps| - 1;
      ResetHoldersChips(ps[..n]);
      assert r[..n] == ResetHolders(ps[..n]);
      assert r == r[..n] + [r[n]];
      assert ps == ps[..n] + [ps[n]];
      SumOfAppend(r[..n], [r[n]], ChipsOf);
      SumOfAppend(ps[..n], [ps[n]], ChipsOf);
    }
  }
}
