/**
 * The v3 betting engine: one betting round at a time over a shared chip ledger.
 *
 * The ledger is a class whose balances map a player id to a chip count; a deduction of a
 * non-positive amount raises, an uncovered one is refused.  The engine keeps the current
 * round (a value it replaces wholesale or edits field by field) and an append-only history.
 * Each executor is specified by a value function (`FoldStep`, `CallStep`, ...) and the
 * conservation of ledger chips plus pot is proved about those functions.
 */
module Betting {
  import opened Common

  type PlayerId = string

  datatype BetType = Fold | Check | Call | Raise | AllIn

  /** A recorded betting action (the timestamp and description are not modelled). */
  datatype BetAction = BetAction(playerId: PlayerId, betType: BetType, amount: int)

  /** What `execute_player_action` reports; the message text is not modelled. */
  datatype BetResult = BetResult(success: bool, action: Option<BetAction>, chipsMoved: int)

  /** The exceptions the engine can raise. */
  datatype BetError =
    | NonPositiveDeduct      // the ledger refuses to deduct zero or fewer chips
    | FoldWithAmount         // a FOLD action must carry amount 0
    | RaiseWithoutAmount     // a RAISE action must carry a positive amount

  datatype BettingRound = BettingRound(
    currentBet: int,
    minRaise: int,
    playerBets: map<PlayerId, nat>,
    playerActions: map<PlayerId, BetAction>,
    activePlayers: seq<PlayerId>)

  /** The effect of one engine operation on values: its result, the new round, the new
    * ledger balances and the actions it appends to the history. */
  datatype Step<R> = Step(result: R, round: BettingRound, balances: map<PlayerId, nat>, recorded: seq<BetAction>)

  // ---------------------------------------------------------------- sums over maps

  /** The sum of the values of a map (Python's `sum(d.values())`). */
  ghost function MapSum(m: map<PlayerId, nat>): nat
    decreases m.Keys
  {
    if m == map[] then 0 else var k :| k in m; m[k] + MapSum(m - {k})
  }

  /** Any key may be taken out first. */
  lemma {:induction false} MapSumRemove(m: map<PlayerId, nat>, k: PlayerId)
    requires k in m
    ensures MapSum(m) == m[k] + MapSum(m - {k})
    decreases m.Keys
  {
    var j :| j in m && MapSum(m) == m[j] + MapSum(m - {j});
    if j != k {
      MapSumRemove(m - {j}, k);
      MapSumRemove(m - {k}, j);
      assert (m - {j}) - {k} == (m - {k}) - {j};
    }
  }

  /** Overwriting one entry changes the sum by the difference. */
  lemma MapSumUpdate(m: map<PlayerId, nat>, k: PlayerId, v: nat)
    ensures MapSum(m[k := v]) == MapSum(m) - (if k in m then m[k] else 0) + v
  {
    MapSumRemove(m[k := v], k);
    assert m[k := v] - {k} == m - {k};
    if k in m {
      MapSumRemove(m, k);
    } else {
      assert m - {k} == m;
    }
  }

  // ---------------------------------------------------------------- the ledger

  /** `get_available_chips`: the balance, 0 for an unknown player (frozen chips are not modelled). */
  function Available(balances: map<PlayerId, nat>, id: PlayerId): nat {
    if id in balances then balances[id] else 0
  }

  /** The balances after a covered deduction. */
  function Debit(balances: map<PlayerId, nat>, id: PlayerId, amount: nat): (r: map<PlayerId, nat>)
    requires amount <= Available(balances, id)
    ensures r.Keys == balances.Keys
    ensures Available(r, id) == Available(balances, id) - amount
  {
    if id in balances then balances[id := balances[id] - amount] else balances
  }

  /** A deduction takes exactly `amount` chips out of the ledger and only from `id`. */
  lemma DebitTotal(balances: map<PlayerId, nat>, id: PlayerId, amount: nat)
    requires 0 < amount <= Available(balances, id)
    ensures MapSum(Debit(balances, id, amount)) == MapSum(balances) - amount
    ensures Available(Debit(balances, id, amount), id) == Available(balances, id) - amount
    ensures forall q :: q != id ==> Available(Debit(balances, id, amount), q) == Available(balances, q)
  {
    MapSumUpdate(balances, id, balances[id] - amount);
  }

  /** The answer `deduct_chips` gives: an error for a non-positive amount, else whether it is covered. */
  function DeductVerdict(balances: map<PlayerId, nat>, id: PlayerId, amount: int): (r: Result<bool, BetError>)
    ensures r.Err? <==> amount <= 0
    ensures r == Ok(true) ==> 0 < amount <= Available(balances, id)
  {
    if amount <= 0 then Err(NonPositiveDeduct) else Ok(Available(balances, id) >= amount)
  }

  class ChipLedger {
    var balances: map<PlayerId, nat>

    constructor(initial: map<PlayerId, nat>)
      ensures balances == initial
    {
      balances := initial;
    }

    /** `get_balance` and `get_available_chips`. */
    function Balance(id: PlayerId): nat
      reads this
    {
      Available(balances, id)
    }

    /** `get_total_chips`. */
    ghost function TotalChips(): nat
      reads this
    {
      MapSum(balances)
    }

    /** `deduct_chips`: raises on a non-positive amount, refuses an uncovered one, else debits. */
    method DeductChips(id: PlayerId, amount: int) returns (r: Result<bool, BetError>)
      modifies this
      ensures r == DeductVerdict(old(balances), id, amount)
      ensures r == Ok(true) ==> balances == Debit(old(balances), id, amount)
      ensures r == Ok(true) ==> TotalChips() == old(TotalChips()) - amount
      ensures r != Ok(true) ==> balances == old(balances)
    {
      if amount <= 0 {
        return Err(NonPositiveDeduct);
      }
      if Available(balances, id) < amount {
        return Ok(false);
      }
      DebitTotal(balances, id, amount);
      balances := Debit(balances, id, amount);
      r := Ok(true);
    }
  }

  // ---------------------------------------------------------------- the round, on values

  /** `player_bets.get(id, 0)`. */
  function Bet(round: BettingRound, id: PlayerId): nat {
    if id in round.playerBets then round.playerBets[id] else 0
  }

  /** Python's `list.remove` for a present element: drop its first occurrence. */
  function RemoveFirst(s: seq<PlayerId>, x: PlayerId): (r: seq<PlayerId>)
    ensures x in s ==> multiset(r) == multiset(s) - multiset{x}
    ensures x !in s ==> r == s
  {
    if s == [] then []
    else if s[0] == x then (assert s == [s[0]] + s[1..]; s[1..])
    else (assert s == [s[0]] + s[1..]; [s[0]] + RemoveFirst(s[1..], x))
  }

  /** In a duplicate-free list the removed player is gone and the rest stays duplicate-free. */
  lemma {:induction false} RemoveFirstDistinct(s: seq<PlayerId>, x: PlayerId)
    requires Distinct(s)
    ensures x !in RemoveFirst(s, x) && Distinct(RemoveFirst(s, x))
  {
    if s != [] {
      assert Distinct(s[1..]) by {
        forall i, j | 0 <= i < j < |s[1..]| ensures s[1..][i] != s[1..][j] {
          assert s[1..][i] == s[i + 1] && s[1..][j] == s[j + 1];
        }
      }
      if s[0] != x {
        RemoveFirstDistinct(s[1..], x);
        var t := RemoveFirst(s[1..], x);
        assert s[0] !in t by {
          assert s[0] !in s[1..];
          if x in s[1..] {
            assert multiset(t) == multiset(s[1..]) - multiset{x};
            assert multiset(t)[s[0]] <= multiset(s[1..])[s[0]];
          }
        }
      }
    }
  }

  /** The chips held in the ledger and in the round's bets together. */
  ghost function ChipsHeld(balances: map<PlayerId, nat>, round: BettingRound): int {
    MapSum(balances) + MapSum(round.playerBets)
  }

  /** The round the engine starts from, and the one `reset_for_next_round` makes. */
  function FreshRound(bigBlind: int, active: seq<PlayerId>): BettingRound {
    BettingRound(0, bigBlind, map[], map[], active)
  }

  /** A blind posted by `start_new_round`: debited, recorded as the player's bet, as the line
    * and as a RAISE action. */
  function Blind(round: BettingRound, balances: map<PlayerId, nat>, id: PlayerId, amount: nat): (BettingRound, map<PlayerId, nat>)
    requires amount <= Available(balances, id)
  {
    (round.(currentBet := amount, playerBets := round.playerBets[id := amount],
            playerActions := round.playerActions[id := BetAction(id, Raise, amount)]),
     Debit(balances, id, amount))
  }

  /** Posting a blind keeps the chips held, except for a bet the player already had, which the
    * blind overwrites. */
  lemma BlindHeld(round: BettingRound, balances: map<PlayerId, nat>, id: PlayerId, amount: nat)
    requires 0 < amount <= Available(balances, id)
    ensures var (after, ledger) := Blind(round, balances, id, amount);
      ChipsHeld(ledger, after) == ChipsHeld(balances, round) - Bet(round, id)
  {
    DebitTotal(balances, id, amount);
    MapSumUpdate(round.playerBets, id, amount);
  }

  /**
   * `start_new_round` for two or more active players: reset the round, then debit the small
   * blind (half the big blind, rounded down) and the big blind.  A blind the ledger cannot
   * cover ends the call with `false` and what was done so far kept.
   */
  function OpenRound(balances: map<PlayerId, nat>, active: seq<PlayerId>, sb: PlayerId, bb: PlayerId, bigBlind: int)
    : Step<Result<bool, BetError>>
  {
    var reset := FreshRound(bigBlind, active);
    var sbAmount := bigBlind / 2;
    if sbAmount <= 0 then Step(Err(NonPositiveDeduct), reset, balances, [])
    else if Available(balances, sb) < sbAmount then Step(Ok(false), reset, balances, [])
    else
      var (posted, afterSb) := Blind(reset, balances, sb, sbAmount);
      var sbAction := BetAction(sb, Raise, sbAmount);
      if Available(afterSb, bb) < bigBlind then Step(Ok(false), posted, afterSb, [sbAction])
      else
        var (done, afterBb) := Blind(posted, afterSb, bb, bigBlind);
        Step(Ok(true), done, afterBb, [sbAction, BetAction(bb, Raise, bigBlind)])
  }

  /** The blinds move chips from the ledger into the pot and nowhere else, whatever the
    * outcome, unless one player posts both blinds: the big blind then overwrites that
    * player's recorded bet and the small blind drops out of the pot. */
  lemma OpenRoundConserves(balances: map<PlayerId, nat>, active: seq<PlayerId>, sb: PlayerId, bb: PlayerId, bigBlind: int)
    ensures var s := OpenRound(balances, active, sb, bb, bigBlind);
      ChipsHeld(s.balances, s.round)
        == MapSum(balances) - (if sb == bb && s.result == Ok(true) then bigBlind / 2 else 0)
  {
    var reset := FreshRound(bigBlind, active);
    var sbAmount := bigBlind / 2;
    assert ChipsHeld(balances, reset) == MapSum(balances) by {
      assert MapSum(map[]) == 0;
    }
    if sbAmount > 0 && Available(balances, sb) >= sbAmount {
      BlindHeld(reset, balances, sb, sbAmount);
      var (posted, afterSb) := Blind(reset, balances, sb, sbAmount);
      if Available(afterSb, bb) >= bigBlind {
        BlindHeld(posted, afterSb, bb, bigBlind);
      }
    }
  }

  /** A round is started exactly when both blinds are covered (a big blind below 2 makes the
    * small blind zero, which the ledger refuses by raising); a started round has the big blind
    * as its line, both blind posters recorded as having acted and the active list copied. */
  lemma OpenRoundOutcome(balances: map<PlayerId, nat>, active: seq<PlayerId>, sb: PlayerId, bb: PlayerId, bigBlind: int)
    ensures var s := OpenRound(balances, active, sb, bb, bigBlind);
      && s.round.activePlayers == active
      && s.round.minRaise == bigBlind
      && (s.result.Err? <==> bigBlind < 2)
      && (s.result == Ok(true) <==>
            bigBlind >= 2 && Available(balances, sb) >= bigBlind / 2
            && Available(Debit(balances, sb, bigBlind / 2), bb) >= bigBlind)
      && (s.result == Ok(true) ==>
            s.round.currentBet == bigBlind && Bet(s.round, bb) == bigBlind
            && sb in s.round.playerActions && bb in s.round.playerActions
            && |s.recorded| == 2)
  {
  }

  /** A refused action: nothing changes and the action, if one was built, is reported back. */
  function Refused(round: BettingRound, balances: map<PlayerId, nat>, a: Option<BetAction>): Step<Result<BetResult, BetError>> {
    Step(Ok(BetResult(false, a, 0)), round, balances, [])
  }

  /** Record `a` as its player's action in the round. */
  function Recorded(round: BettingRound, a: BetAction): BettingRound {
    round.(playerActions := round.playerActions[a.playerId := a])
  }

  /** `_execute_fold`: leave the active list, move no chips. */
  function FoldStep(round: BettingRound, balances: map<PlayerId, nat>, a: BetAction): Step<Result<BetResult, BetError>> {
    Step(Ok(BetResult(true, Some(a), 0)),
         Recorded(round, a).(activePlayers := RemoveFirst(round.activePlayers, a.playerId)), balances, [a])
  }

  /** `_execute_check`: record only. */
  function CheckStep(round: BettingRound, balances: map<PlayerId, nat>, a: BetAction): Step<Result<BetResult, BetError>> {
    Step(Ok(BetResult(true, Some(a), 0)), Recorded(round, a), balances, [a])
  }

  /** `_execute_call`: pay the difference to the current bet. */
  function CallStep(round: BettingRound, balances: map<PlayerId, nat>, a: BetAction): Step<Result<BetResult, BetError>> {
    var owed := round.currentBet - Bet(round, a.playerId);
    if owed <= 0 then Step(Err(NonPositiveDeduct), round, balances, [])
    else if Available(balances, a.playerId) < owed then Refused(round, balances, Some(a))
    else Step(Ok(BetResult(true, Some(a), owed)),
              Recorded(round, a).(playerBets := round.playerBets[a.playerId := round.currentBet]),
              Debit(balances, a.playerId, owed), [a])
  }

  /** `_execute_raise`: pay up to the action's amount, which becomes the current bet. */
  function RaiseStep(round: BettingRound, balances: map<PlayerId, nat>, a: BetAction): Step<Result<BetResult, BetError>> {
    var raised := a.amount - Bet(round, a.playerId);
    if raised <= 0 then Step(Err(NonPositiveDeduct), round, balances, [])
    else if Available(balances, a.playerId) < raised then Refused(round, balances, Some(a))
    else Step(Ok(BetResult(true, Some(a), raised)),
              Recorded(round, a).(currentBet := a.amount, playerBets := round.playerBets[a.playerId := a.amount]),
              Debit(balances, a.playerId, raised), [a])
  }

  /** `_execute_all_in`: pay every available chip; a total above the line becomes the new line
    * and its excess the new minimum raise.  The action recorded carries the total. */
  function AllInStep(round: BettingRound, balances: map<PlayerId, nat>, a: BetAction): Step<Result<BetResult, BetError>> {
    var available := Available(balances, a.playerId);
    var total := Bet(round, a.playerId) + available;
    var actual := BetAction(a.playerId, AllIn, total);
    if available == 0 then Step(Err(NonPositiveDeduct), round, balances, [])
    else
      var lined := if total > round.currentBet
        then round.(currentBet := total, minRaise := total - round.currentBet)
        else round;
      Step(Ok(BetResult(true, Some(actual), available)),
           Recorded(lined, actual).(playerBets := round.playerBets[a.playerId := total]),
           Debit(balances, a.playerId, available), [actual])
  }

  /** `_execute_bet_action`: the external validator's verdict first, then the executor for the type. */
  function BetStep(round: BettingRound, balances: map<PlayerId, nat>, a: BetAction, approved: bool): Step<Result<BetResult, BetError>> {
    if !approved then Refused(round, balances, Some(a))
    else match a.betType
      case Fold => FoldStep(round, balances, a)
      case Check => CheckStep(round, balances, a)
      case Call => CallStep(round, balances, a)
      case Raise => RaiseStep(round, balances, a)
      case AllIn => AllInStep(round, balances, a)
  }

  /** Building a `BetAction`: a FOLD must carry 0 and a RAISE a positive amount. */
  function NewBetAction(id: PlayerId, t: BetType, amount: int): (r: Result<BetAction, BetError>)
    ensures r.Ok? ==> r.value == BetAction(id, t, amount)
    ensures r.Err? <==> (t == Fold && amount != 0) || (t == Raise && amount <= 0)
  {
    if t == Fold && amount != 0 then Err(FoldWithAmount)
    else if t == Raise && amount <= 0 then Err(RaiseWithoutAmount)
    else Ok(BetAction(id, t, amount))
  }

  /** `execute_player_action`: only an active player who has not acted this round may act. */
  function PlayerStep(round: BettingRound, balances: map<PlayerId, nat>, id: PlayerId, t: BetType, amount: int, approved: bool)
    : Step<Result<BetResult, BetError>>
  {
    if id !in round.activePlayers || id in round.playerActions then Refused(round, balances, None)
    else match NewBetAction(id, t, amount)
      case Err(e) => Step(Err(e), round, balances, [])
      case Ok(a) => BetStep(round, balances, a, approved)
  }

  /** Whether a step succeeded. */
  predicate Succeeded(s: Step<Result<BetResult, BetError>>) {
    s.result.Ok? && s.result.value.success
  }

  // ---------------------------------------------------------------- properties of one action

  /** What every action promises: chips in the ledger plus the pot are kept; an action that
    * does not succeed changes nothing; one that succeeds moves `chipsMoved` chips from its
    * player into the pot and records exactly one action, for that player. */
  ghost predicate Accounted(round: BettingRound, balances: map<PlayerId, nat>, id: PlayerId, s: Step<Result<BetResult, BetError>>) {
    && ChipsHeld(s.balances, s.round) == ChipsHeld(balances, round)
    && (!Succeeded(s) ==> s.round == round && s.balances == balances && s.recorded == [])
    && (Succeeded(s) ==>
          && s.result.value.action.Some?
          && s.recorded == [s.result.value.action.value]
          && s.recorded[0].playerId == id
          && s.round.playerActions == round.playerActions[id := s.recorded[0]]
          && Available(s.balances, id) == Available(balances, id) - s.result.value.chipsMoved
          && Bet(s.round, id) == Bet(round, id) + s.result.value.chipsMoved
          && (forall q :: q != id ==> Available(s.balances, q) == Available(balances, q))
          && (forall q :: q != id ==> Bet(s.round, q) == Bet(round, q)))
  }

  /** A paying step debits the ledger and credits the bet by the same amount. */
  lemma PaidIntoPot(round: BettingRound, balances: map<PlayerId, nat>, id: PlayerId, moved: nat)
    requires 0 < moved <= Available(balances, id)
    ensures MapSum(Debit(balances, id, moved)) + MapSum(round.playerBets[id := Bet(round, id) + moved])
         == ChipsHeld(balances, round)
  {
    DebitTotal(balances, id, moved);
    MapSumUpdate(round.playerBets, id, Bet(round, id) + moved);
  }

  lemma CallAccounted(round: BettingRound, balances: map<PlayerId, nat>, a: BetAction)
    ensures Accounted(round, balances, a.playerId, CallStep(round, balances, a))
  {
    var owed := round.currentBet - Bet(round, a.playerId);
    if 0 < owed <= Available(balances, a.playerId) {
      PaidIntoPot(round, balances, a.playerId, owed);
      DebitTotal(balances, a.playerId, owed);
    }
  }

  lemma RaiseAccounted(round: BettingRound, balances: map<PlayerId, nat>, a: BetAction)
    ensures Accounted(round, balances, a.playerId, RaiseStep(round, balances, a))
  {
    var raised := a.amount - Bet(round, a.playerId);
    if 0 < raised <= Available(balances, a.playerId) {
      PaidIntoPot(round, balances, a.playerId, raised);
      DebitTotal(balances, a.playerId, raised);
    }
  }

  lemma AllInAccounted(round: BettingRound, balances: map<PlayerId, nat>, a: BetAction)
    ensures Accounted(round, balances, a.playerId, AllInStep(round, balances, a))
  {
    var available := Available(balances, a.playerId);
    if available > 0 {
      PaidIntoPot(round, balances, a.playerId, available);
      DebitTotal(balances, a.playerId, available);
    }
  }

  /** Every action, whatever its type and the validator's verdict, is `Accounted`. */
  lemma PlayerStepConserves(round: BettingRound, balances: map<PlayerId, nat>, id: PlayerId, t: BetType, amount: int, approved: bool)
    ensures Accounted(round, balances, id, PlayerStep(round, balances, id, t, amount, approved))
  {
    if id in round.activePlayers && id !in round.playerActions && NewBetAction(id, t, amount).Ok? && approved {
      var a := BetAction(id, t, amount);
      match t
      case Fold =>
      case Check =>
      case Call => CallAccounted(round, balances, a);
      case Raise => RaiseAccounted(round, balances, a);
      case AllIn => AllInAccounted(round, balances, a);
    }
  }

  /** A player acts at most once a round: after a successful action every further action by
    * the same player is refused, however it is approved. */
  lemma ActsOnce(round: BettingRound, balances: map<PlayerId, nat>, id: PlayerId, t: BetType, amount: int, approved: bool,
                 t2: BetType, amount2: int, approved2: bool)
    requires Succeeded(PlayerStep(round, balances, id, t, amount, approved))
    ensures var s := PlayerStep(round, balances, id, t, amount, approved);
      PlayerStep(s.round, s.balances, id, t2, amount2, approved2) == Refused(s.round, s.balances, None)
  {
    PlayerStepConserves(round, balances, id, t, amount, approved);
  }

  /** Success needs an active player who has not acted, a well-formed action and the validator's approval. */
  lemma SucceedsOnlyWhenAllowed(round: BettingRound, balances: map<PlayerId, nat>, id: PlayerId, t: BetType, amount: int, approved: bool)
    requires Succeeded(PlayerStep(round, balances, id, t, amount, approved))
    ensures id in round.activePlayers && id !in round.playerActions && approved
    ensures NewBetAction(id, t, amount).Ok?
  {
  }

  /** FOLD moves no chips and takes the player out of a duplicate-free active list. */
  lemma FoldLeavesRound(round: BettingRound, balances: map<PlayerId, nat>, id: PlayerId, approved: bool)
    requires Distinct(round.activePlayers)
    ensures var s := PlayerStep(round, balances, id, Fold, 0, approved);
      && s.balances == balances && s.round.playerBets == round.playerBets
      && (Succeeded(s) <==> approved && id in round.activePlayers && id !in round.playerActions)
      && (Succeeded(s) ==> id !in s.round.activePlayers && Distinct(s.round.activePlayers) && s.result.value.chipsMoved == 0)
  {
    RemoveFirstDistinct(round.activePlayers, id);
  }

  /** CALL brings the player's bet up to the line and changes neither the line nor the minimum raise. */
  lemma CallMatchesLine(round: BettingRound, balances: map<PlayerId, nat>, id: PlayerId, amount: int, approved: bool)
    ensures var s := PlayerStep(round, balances, id, Call, amount, approved);
      Succeeded(s) ==>
        && Bet(s.round, id) == round.currentBet
        && s.result.value.chipsMoved == round.currentBet - Bet(round, id) > 0
        && s.round.currentBet == round.currentBet && s.round.minRaise == round.minRaise
  {
  }

  /** RAISE sets the line to the amount and leaves the minimum raise as it was. */
  lemma RaiseKeepsMinRaise(round: BettingRound, balances: map<PlayerId, nat>, id: PlayerId, amount: int, approved: bool)
    ensures var s := PlayerStep(round, balances, id, Raise, amount, approved);
      Succeeded(s) ==>
        && s.round.currentBet == amount == Bet(s.round, id)
        && s.round.minRaise == round.minRaise
        && s.result.value.chipsMoved == amount - Bet(round, id)
  {
  }

  /** ALL_IN empties the player's available chips; the line rises to the total only when the
    * total exceeds it, and then the minimum raise becomes the increase. */
  lemma AllInMovesLine(round: BettingRound, balances: map<PlayerId, nat>, id: PlayerId, amount: int, approved: bool)
    ensures var s := PlayerStep(round, balances, id, AllIn, amount, approved);
      Succeeded(s) ==>
        var total := Bet(round, id) + Available(balances, id);
        && Available(s.balances, id) == 0
        && Bet(s.round, id) == total
        && s.result.value.action == Some(BetAction(id, AllIn, total))
        && (total > round.currentBet ==> s.round.currentBet == total && s.round.minRaise == total - round.currentBet)
        && (total <= round.currentBet ==> s.round.currentBet == round.currentBet && s.round.minRaise == round.minRaise)
  {
    var s := PlayerStep(round, balances, id, AllIn, amount, approved);
    if Succeeded(s) {
      DebitTotal(balances, id, Available(balances, id));
    }
  }

  /** Three players with 1000 chips each and a big blind of 20: the blinds leave 990 and 980,
    * the line at 20; the third player's call moves 20 chips; the small-blind poster, already
    * recorded by the blinds, is refused when they try to call. */
  lemma ThreePlayerRound()
    ensures var balances := map["player1" := 1000, "player2" := 1000, "player3" := 1000];
      var started := OpenRound(balances, ["player1", "player2", "player3"], "player1", "player2", 20);
      && started.result == Ok(true)
      && started.balances == map["player1" := 990, "player2" := 980, "player3" := 1000]
      && started.round.currentBet == 20 && started.round.minRaise == 20
      && var called := PlayerStep(started.round, started.balances, "player3", Call, 0, true);
         && called.result == Ok(BetResult(true, Some(BetAction("player3", Call, 0)), 20))
         && Available(called.balances, "player3") == 980
         && PlayerStep(called.round, called.balances, "player1", Call, 0, true).result == Ok(BetResult(false, None, 0))
  {
    var balances := map["player1" := 1000, "player2" := 1000, "player3" := 1000];
    var started := OpenRound(balances, ["player1", "player2", "player3"], "player1", "player2", 20);
    assert Debit(balances, "player1", 10) == map["player1" := 990, "player2" := 1000, "player3" := 1000];
    assert started.balances == map["player1" := 990, "player2" := 980, "player3" := 1000];
    assert "player3" in started.round.activePlayers;
    assert Bet(started.round, "player3") == 0;
  }

  // ---------------------------------------------------------------- the engine

  class BettingEngine {
    const ledger: ChipLedger
    const bigBlind: int
    var currentRound: BettingRound
    var bettingHistory: seq<BetAction>

    constructor(ledger: ChipLedger, bigBlind: int)
      ensures this.ledger == ledger && this.bigBlind == bigBlind
      ensures currentRound == FreshRound(bigBlind, []) && bettingHistory == []
    {
      this.ledger := ledger;
      this.bigBlind := bigBlind;
      currentRound := FreshRound(bigBlind, []);
      bettingHistory := [];
    }

    /** Chips in the ledger plus chips bet this round. */
    ghost function Holdings(): int
      reads this, ledger
    {
      ChipsHeld(ledger.balances, currentRound)
    }

    /** `get_total_pot`: the sum of the round's bets. */
    method GetTotalPot() returns (total: nat)
      ensures total == MapSum(currentRound.playerBets)
    {
      var rest := currentRound.playerBets;
      total := 0;
      while rest != map[]
        invariant total + MapSum(rest) == MapSum(currentRound.playerBets)
        decreases rest.Keys
      {
        var k :| k in rest;
        MapSumRemove(rest, k);
        total := total + rest[k];
        rest := rest - {k};
      }
    }

    /** `start_new_round`: fewer than two players leaves everything as it was; otherwise the
      * round is reset and the blinds posted as `OpenRound` says. */
    method StartNewRound(active: seq<PlayerId>, sb: PlayerId, bb: PlayerId) returns (r: Result<bool, BetError>)
      modifies this`currentRound, this`bettingHistory, ledger
      ensures |active| < 2 ==>
        r == Ok(false) && currentRound == old(currentRound)
        && bettingHistory == old(bettingHistory) && ledger.balances == old(ledger.balances)
      ensures |active| >= 2 ==>
        var s := OpenRound(old(ledger.balances), active, sb, bb, bigBlind);
        r == s.result && currentRound == s.round && ledger.balances == s.balances
        && bettingHistory == old(bettingHistory) + s.recorded
      ensures |active| >= 2 && sb != bb ==> Holdings() == old(ledger.TotalChips())
    {
      OpenRoundConserves(ledger.balances, active, sb, bb, bigBlind);
      if |active| < 2 {
        return Ok(false);
      }
      ghost var before := ledger.balances;
      currentRound := FreshRound(bigBlind, active);
      var sbAmount := bigBlind / 2;
      r := ledger.DeductChips(sb, sbAmount);
      if r != Ok(true) {
        return;
      }
      var sbAction := BetAction(sb, Raise, sbAmount);
      currentRound := currentRound.(currentBet := sbAmount, playerBets := currentRound.playerBets[sb := sbAmount],
                                    playerActions := currentRound.playerActions[sb := sbAction]);
      bettingHistory := bettingHistory + [sbAction];
      r := ledger.DeductChips(bb, bigBlind);
      if r != Ok(true) {
        assert r == Ok(false);
        return;
      }
      var bbAction := BetAction(bb, Raise, bigBlind);
      currentRound := currentRound.(currentBet := bigBlind, playerBets := currentRound.playerBets[bb := bigBlind],
                                    playerActions := currentRound.playerActions[bb := bbAction]);
      bettingHistory := bettingHistory + [bbAction];
    }

    /** `execute_player_action`, with the external validator's verdict on the action as `approved`. */
    method ExecutePlayerAction(id: PlayerId, t: BetType, amount: int, approved: bool) returns (r: Result<BetResult, BetError>)
      modifies this`currentRound, this`bettingHistory, ledger
      ensures var s := PlayerStep(old(currentRound), old(ledger.balances), id, t, amount, approved);
        r == s.result && currentRound == s.round && ledger.balances == s.balances
        && bettingHistory == old(bettingHistory) + s.recorded
      ensures Holdings() == old(Holdings())
    {
      PlayerStepConserves(currentRound, ledger.balances, id, t, amount, approved);
      if id !in currentRound.activePlayers || id in currentRound.playerActions {
        return Ok(BetResult(false, None, 0));
      }
      var built := NewBetAction(id, t, amount);
      if built.Err? {
        return Err(built.error);
      }
      r := ExecuteBetAction(built.value, approved);
    }

    /** `_execute_bet_action`. */
    method ExecuteBetAction(a: BetAction, approved: bool) returns (r: Result<BetResult, BetError>)
      modifies this`currentRound, this`bettingHistory, ledger
      ensures var s := BetStep(old(currentRound), old(ledger.balances), a, approved);
        r == s.result && currentRound == s.round && ledger.balances == s.balances
        && bettingHistory == old(bettingHistory) + s.recorded
    {
      if !approved {
        return Ok(BetResult(false, Some(a), 0));
      }
      match a.betType
      case Fold => r := ExecuteFold(a);
      case Check => r := ExecuteCheck(a);
      case Call => r := ExecuteCall(a);
      case Raise => r := ExecuteRaise(a);
      case AllIn => r := ExecuteAllIn(a);
    }

    method ExecuteFold(a: BetAction) returns (r: Result<BetResult, BetError>)
      modifies this`currentRound, this`bettingHistory
      ensures var s := FoldStep(old(currentRound), ledger.balances, a);
        r == s.result && currentRound == s.round && bettingHistory == old(bettingHistory) + s.recorded
    {
      currentRound := currentRound.(activePlayers := RemoveFirst(currentRound.activePlayers, a.playerId));
      currentRound := currentRound.(playerActions := currentRound.playerActions[a.playerId := a]);
      bettingHistory := bettingHistory + [a];
      r := Ok(BetResult(true, Some(a), 0));
    }

    method ExecuteCheck(a: BetAction) returns (r: Result<BetResult, BetError>)
      modifies this`currentRound, this`bettingHistory
      ensures var s := CheckStep(old(currentRound), ledger.balances, a);
        r == s.result && currentRound == s.round && bettingHistory == old(bettingHistory) + s.recorded
    {
      currentRound := currentRound.(playerActions := currentRound.playerActions[a.playerId := a]);
      bettingHistory := bettingHistory + [a];
      r := Ok(BetResult(true, Some(a), 0));
    }

    method ExecuteCall(a: BetAction) returns (r: Result<BetResult, BetError>)
      modifies this`currentRound, this`bettingHistory, ledger
      ensures var s := CallStep(old(currentRound), old(ledger.balances), a);
        r == s.result && currentRound == s.round && ledger.balances == s.balances
        && bettingHistory == old(bettingHistory) + s.recorded
    {
      var owed := currentRound.currentBet - Bet(currentRound, a.playerId);
      var paid := ledger.DeductChips(a.playerId, owed);
      if paid.Err? {
        return Err(paid.error);
      }
      if !paid.value {
        return Ok(BetResult(false, Some(a), 0));
      }
      currentRound := currentRound.(playerBets := currentRound.playerBets[a.playerId := currentRound.currentBet]);
      currentRound := currentRound.(playerActions := currentRound.playerActions[a.playerId := a]);
      bettingHistory := bettingHistory + [a];
      r := Ok(BetResult(true, Some(a), owed));
    }

    method ExecuteRaise(a: BetAction) returns (r: Result<BetResult, BetError>)
      modifies this`currentRound, this`bettingHistory, ledger
      ensures var s := RaiseStep(old(currentRound), old(ledger.balances), a);
        r == s.result && currentRound == s.round && ledger.balances == s.balances
        && bettingHistory == old(bettingHistory) + s.recorded
    {
      var raised := a.amount - Bet(currentRound, a.playerId);
      var paid := ledger.DeductChips(a.playerId, raised);
      if paid.Err? {
        return Err(paid.error);
      }
      if !paid.value {
        return Ok(BetResult(false, Some(a), 0));
      }
      currentRound := currentRound.(currentBet := a.amount, playerBets := currentRound.playerBets[a.playerId := a.amount]);
      currentRound := currentRound.(playerActions := currentRound.playerActions[a.playerId := a]);
      bettingHistory := bettingHistory + [a];
      r := Ok(BetResult(true, Some(a), raised));
    }

    method ExecuteAllIn(a: BetAction) returns (r: Result<BetResult, BetError>)
      modifies this`currentRound, this`bettingHistory, ledger
      ensures var s := AllInStep(old(currentRound), old(ledger.balances), a);
        r == s.result && currentRound == s.round && ledger.balances == s.balances
        && bettingHistory == old(bettingHistory) + s.recorded
    {
      var available := ledger.Balance(a.playerId);
      var total := Bet(currentRound, a.playerId) + available;
      var paid := ledger.DeductChips(a.playerId, available);
      if paid.Err? {
        return Err(paid.error);
      }
      if total > currentRound.currentBet {
        var oldBet := currentRound.currentBet;
        currentRound := currentRound.(currentBet := total, minRaise := total - oldBet);
      }
      currentRound := currentRound.(playerBets := currentRound.playerBets[a.playerId := total]);
      var actual := BetAction(a.playerId, AllIn, total);
      currentRound := currentRound.(playerActions := currentRound.playerActions[a.playerId := actual]);
      bettingHistory := bettingHistory + [actual];
      r := Ok(BetResult(true, Some(actual), available));
    }

    /** `reset_for_next_round`: a fresh round over the same active players; the history stays. */
    method ResetForNextRound()
      modifies this`currentRound
      ensures currentRound == FreshRound(bigBlind, old(currentRound.activePlayers))
      ensures MapSum(currentRound.playerBets) == 0 && currentRound.playerActions == map[]
    {
      currentRound := FreshRound(bigBlind, currentRound.activePlayers);
    }
  }
}
