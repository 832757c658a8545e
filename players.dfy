/**
 * A seat at the table as the game-state classes of every engine version use it: the
 * player value, its status, and the chip operations the state code calls on it
 * (`bet`, `add_chips`, `fold`, `reset_for_new_hand`, `reset_current_bet`).
 * The player class itself is not part of this model; its behaviour is the one its
 * unit tests state.
 */
module Players {
  import opened Common

  datatype SeatStatus = Active | Folded | AllIn | Out

  /** One player; `acted` records whether `last_action_type` is set. */
  datatype Player = Player(
    seat: nat,
    chips: nat,
    currentBet: nat,
    status: SeatStatus,
    holeCards: seq<Card>,
    isDealer: bool,
    isSmallBlind: bool,
    isBigBlind: bool,
    acted: bool)

  datatype PlayerError = NegativeAmount | CannotAct | CannotFold

  /** A fresh active player with no bet and no cards. */
  function NewPlayer(seat: nat, chips: nat): Player {
    Player(seat, chips, 0, Active, [], false, false, false, false)
  }

  /** `can_act`: still in the hand with chips behind. */
  predicate CanAct(p: Player) {
    p.status == Active && p.chips > 0
  }

  /** ACTIVE or ALL_IN: the player still contests the pot. */
  predicate InHand(p: Player) {
    p.status == Active || p.status == AllIn
  }

  /** Chips the player owns at the table, behind and in front. */
  function Stack(p: Player): nat {
    p.chips + p.currentBet
  }

  /**
   * `bet(amount)`: a negative amount or a player who cannot act raises; otherwise the
   * player puts in `min(amount, chips)` and is ALL_IN once no chips remain.
   * Returns the updated player and the amount actually put in.
   */
  function Bet(p: Player, amount: int): (r: Result<(Player, nat), PlayerError>)
    ensures amount < 0 ==> r == Err(NegativeAmount)
    ensures amount >= 0 && !CanAct(p) ==> r == Err(CannotAct)
    ensures r.Ok? ==>
      var (q, actual) := r.value;
      && actual == (if amount <= p.chips then amount else p.chips)
      && q.chips == p.chips - actual
      && q.currentBet == p.currentBet + actual
      && Stack(q) == Stack(p)
      && q.status == (if q.chips == 0 then AllIn else Active)
      && q == p.(chips := q.chips, currentBet := q.currentBet, status := q.status)
  {
    if amount < 0 then Err(NegativeAmount)
    else if !CanAct(p) then Err(CannotAct)
    else
      var actual := if amount <= p.chips then amount else p.chips;
      var left := p.chips - actual;
      Ok((p.(chips := left, currentBet := p.currentBet + actual,
             status := if left == 0 then AllIn else p.status), actual))
  }

  /** `add_chips(amount)`: a negative amount raises; an OUT player becomes ACTIVE again. */
  function AddChips(p: Player, amount: int): (r: Result<Player, PlayerError>)
    ensures amount < 0 <==> r.Err?
    ensures r.Ok? ==> r.value.chips == p.chips + amount && r.value.currentBet == p.currentBet
    ensures r.Ok? ==> r.value.status == (if p.status == Out then Active else p.status)
  {
    if amount < 0 then Err(NegativeAmount)
    else Ok(p.(chips := p.chips + amount, status := if p.status == Out then Active else p.status))
  }

  /** `fold()`: an ACTIVE or ALL_IN player folds; anyone else raises. */
  function Fold(p: Player): (r: Result<Player, PlayerError>)
    ensures r.Ok? <==> InHand(p)
    ensures r.Ok? ==> r.value == p.(status := Folded)
  {
    if InHand(p) then Ok(p.(status := Folded)) else Err(CannotFold)
  }

  /** `reset_for_new_hand()`: cards and bet cleared; ACTIVE again, or OUT when broke. Position flags stay. */
  function ResetForNewHand(p: Player): (q: Player)
    ensures q.holeCards == [] && q.currentBet == 0 && !q.acted
    ensures q.status == Out <==> p.chips == 0
    ensures q.status == Active <==> p.chips > 0
    ensures q.chips == p.chips && q.seat == p.seat && q.isDealer == p.isDealer
  {
    p.(holeCards := [], currentBet := 0, acted := false, status := if p.chips == 0 then Out else Active)
  }

  /** `reset_current_bet()`: the street's bet and last action are cleared. */
  function ResetCurrentBet(p: Player): (q: Player)
    ensures q.currentBet == 0 && !q.acted
    ensures q.(currentBet := p.currentBet, acted := p.acted) == p
  {
    p.(currentBet := 0, acted := false)
  }

  /** ACTIVE: may still act this street. */
  predicate IsActive(p: Player) {
    p.status == Active
  }

  /** Not OUT: still seated in the current hand, folded or not. */
  predicate NotOut(p: Player) {
    p.status != Out
  }

  /** `get_active_players`: the ACTIVE players, in list order. */
  function ActivePlayers(ps: seq<Player>): seq<Player> {
    Filter(ps, IsActive)
  }

  /** Every player's `reset_current_bet()`. */
  function ResetBets(ps: seq<Player>): (r: seq<Player>)
    ensures |r| == |ps| && forall k :: 0 <= k < |ps| ==> r[k] == ResetCurrentBet(ps[k])
  {
    seq(|ps|, k requires 0 <= k < |ps| => ResetCurrentBet(ps[k]))
  }

  /** Seat ids are unique at the table. */
  predicate DistinctSeats(ps: seq<Player>) {
    forall i, j :: 0 <= i < j < |ps| ==> ps[i].seat != ps[j].seat
  }

  /** Two seat lists of the same players, seat for seat. */
  predicate SameSeats(a: seq<Player>, b: seq<Player>) {
    |a| == |b| && forall k :: 0 <= k < |a| ==> a[k].seat == b[k].seat
  }

  /** Changing players without moving them keeps seat ids unique. */
  lemma SameSeatsDistinct(a: seq<Player>, b: seq<Player>)
    requires SameSeats(a, b) && DistinctSeats(a)
    ensures DistinctSeats(b)
  {
    forall i, j | 0 <= i < j < |b| ensures b[i].seat != b[j].seat {
      assert a[i].seat == b[i].seat && a[j].seat == b[j].seat;
    }
  }

  /** Some player sits at `seat`. */
  predicate SeatTaken(ps: seq<Player>, seat: nat) {
    exists j :: 0 <= j < |ps| && ps[j].seat == seat
  }

  function ChipsOf(p: Player): int { p.chips }
  function BetOf(p: Player): int { p.currentBet }

  /** Σ chips behind over the table. */
  function TotalChips(ps: seq<Player>): int { SumOf(ps, ChipsOf) }

  /** Σ current bets over the table. */
  function TotalBets(ps: seq<Player>): int { SumOf(ps, BetOf) }

  /** Index of the first player with the given seat (`get_player_by_seat`), if any. */
  function IndexOfSeat(ps: seq<Player>, seat: nat): (r: Option<nat>)
    ensures r.Some? ==>
      && r.value < |ps| && ps[r.value].seat == seat
      && forall k :: 0 <= k < r.value ==> ps[k].seat != seat
    ensures r.None? <==> forall k :: 0 <= k < |ps| ==> ps[k].seat != seat
  {
    if ps == [] then None
    else if ps[0].seat == seat then Some(0)
    else match IndexOfSeat(ps[1..], seat)
      case None => None
      case Some(i) => Some(i + 1)
  }

  /** Chips and bets are both unchanged by a move of `amount` from one into the other. */
  lemma ChipsAndBetsAfterUpdate(ps: seq<Player>, i: nat, q: Player)
    requires i < |ps| && Stack(q) == Stack(ps[i])
    ensures TotalChips(ps[i := q]) + TotalBets(ps[i := q]) == TotalChips(ps) + TotalBets(ps)
  {
    SumOfUpdate(ps, i, q, ChipsOf);
    SumOfUpdate(ps, i, q, BetOf);
  }
}
