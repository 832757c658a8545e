/**
 * The v3 betting-rules invariant checker: seven checks over an immutable game-state
 * snapshot, each a verdict together with the violations it records, and the overall check
 * that passes iff every one of them does.
 */
module BettingRules {
  import opened Common
  import opened Phases
  import opened Snapshots

  function Named(p: PlayerSnapshot, severity: Severity): Violation {
    Violation(severity, Some(p.playerId))
  }

  // ---------------------------------------------------------------- betting limits

  /**
   * The two per-player limit tests, in seat order. Each compares a bet with the
   * remaining chips plus that same bet, so it fires only for a negative chip count.
   */
  function LimitViolations(ps: seq<PlayerSnapshot>): (r: seq<Violation>)
    ensures |r| == 2 * NegativeChipCount(ps)
    ensures forall k :: 0 <= k < |r| ==> r[k].severity == Critical
  {
    if ps == [] then []
    else
      var p := ps[0];
      (if p.totalBetThisHand > p.chips + p.totalBetThisHand then [Named(p, Critical)] else [])
      + (if p.currentBet > p.chips + p.currentBet then [Named(p, Critical)] else [])
      + LimitViolations(ps[1..])
  }

  function NegativeChipCount(ps: seq<PlayerSnapshot>): nat {
    if ps == [] then 0 else (if ps[0].chips < 0 then 1 else 0) + NegativeChipCount(ps[1..])
  }

  lemma {:induction false} NoNegativeChips(ps: seq<PlayerSnapshot>)
    ensures NegativeChipCount(ps) == 0 <==> forall k :: 0 <= k < |ps| ==> ps[k].chips >= 0
  {
    if ps != [] {
      NoNegativeChips(ps[1..]);
      assert forall k :: 1 <= k < |ps| ==> ps[k] == ps[1..][k - 1];
    }
  }

  function BettingLimits(s: GameStateSnapshot): Verdict {
    FailOnAny(LimitViolations(s.players))
  }

  /**
   * The limit check fails exactly when some player's chip count is negative; a bet larger
   * than the chips a player had is never seen by it.
   */
  lemma BettingLimitsOnlyNegativeChips(s: GameStateSnapshot)
    ensures BettingLimits(s).passed <==> forall k :: 0 <= k < |s.players| ==> s.players[k].chips >= 0
  {
    NoNegativeChips(s.players);
  }

  // ---------------------------------------------------------------- all-in players

  /** One warning per all-in player who still holds chips. */
  function AllInWarnings(ps: seq<PlayerSnapshot>): (r: seq<Violation>)
    ensures forall k :: 0 <= k < |r| ==> r[k].severity == Warning
    ensures |r| == 0 <==> forall k :: 0 <= k < |ps| ==> !(ps[k].isAllIn && ps[k].chips > 0)
  {
    if ps == [] then []
    else
      assert forall k :: 1 <= k < |ps| ==> ps[k] == ps[1..][k - 1];
      (if ps[0].isAllIn && ps[0].chips > 0 then [Named(ps[0], Warning)] else [])
      + AllInWarnings(ps[1..])
  }

  /** An all-in player with chips left is only warned about: this check never fails. */
  function AllInRules(s: GameStateSnapshot): (r: Verdict)
    ensures r.passed
    ensures r.violations == AllInWarnings(s.players)
  {
    Pass(AllInWarnings(s.players))
  }

  // ---------------------------------------------------------------- blinds

  function BlindRules(s: GameStateSnapshot): (r: Verdict)
    ensures r.passed <==>
      s.bigBlindAmount > s.smallBlindAmount
      && s.smallBlindPosition < |s.players|
      && s.bigBlindPosition < |s.players|
      && !(|s.players| > 2 && s.smallBlindPosition == s.bigBlindPosition)
    ensures forall k :: 0 <= k < |r.violations| ==> r.violations[k].severity == Critical
  {
    var n := |s.players|;
    var v := Violation(Critical, None);
    FailOnAny(
      (if s.bigBlindAmount <= s.smallBlindAmount then [v] else [])
      + (if s.smallBlindPosition >= n then [v] else [])
      + (if s.bigBlindPosition >= n then [v] else [])
      + (if n > 2 && s.smallBlindPosition == s.bigBlindPosition then [v] else []))
  }

  // ---------------------------------------------------------------- current bet

  /** `max(player.current_bet for player in players)`; Python raises on no players. */
  function MaxBet(ps: seq<PlayerSnapshot>): (r: int)
    requires |ps| > 0
    ensures forall k :: 0 <= k < |ps| ==> ps[k].currentBet <= r
    ensures exists k :: 0 <= k < |ps| && ps[k].currentBet == r
  {
    if |ps| == 1 then ps[0].currentBet
    else
      var m := MaxBet(ps[1..]);
      assert forall k :: 1 <= k < |ps| ==> ps[k] == ps[1..][k - 1];
      if ps[0].currentBet >= m then ps[0].currentBet else m
  }

  /**
   * The recorded current bet must be the highest player bet. None stands for the error
   * `max` raises when the snapshot has no players.
   */
  function CurrentBetConsistency(s: GameStateSnapshot): (r: Option<Verdict>)
    ensures r.None? <==> |s.players| == 0
    ensures r.Some? ==> (r.value.passed <==>
      (forall k :: 0 <= k < |s.players| ==> s.players[k].currentBet <= s.currentBet)
      && exists k :: 0 <= k < |s.players| && s.players[k].currentBet == s.currentBet)
  {
    if |s.players| == 0 then None
    else
      var top := MaxBet(s.players);
      Some(FailOnAny(if s.currentBet != top then [Violation(Critical, None)] else []))
  }

  // ---------------------------------------------------------------- phase rules

  /** Bets in INIT and an empty pot in PRE_FLOP are warned about; the check never fails. */
  function PhaseBettingRules(s: GameStateSnapshot): (r: Verdict)
    ensures r.passed
    ensures |r.violations| == 0 <==>
      !(s.phase == Init && s.currentBet > 0) && !(s.phase == PreFlop && s.pot.totalPot == 0)
    ensures forall k :: 0 <= k < |r.violations| ==> r.violations[k].severity == Warning
  {
    var w := Violation(Warning, None);
    match s.phase
    case Init => Pass(if s.currentBet > 0 then [w] else [])
    case PreFlop => Pass(if s.pot.totalPot == 0 then [w] else [])
    case _ => Pass([])
  }

  // ---------------------------------------------------------------- minimum raise

  /** `[player.current_bet for player in players if player.is_active]`. */
  function ActiveBets(ps: seq<PlayerSnapshot>): (r: seq<int>)
    ensures |r| == |ActivePlayers(ps)|
    ensures forall i :: 0 <= i < |r| ==> r[i] == ActivePlayers(ps)[i].currentBet
  {
    var active := ActivePlayers(ps);
    seq(|active|, i requires 0 <= i < |active| => active[i].currentBet)
  }

  /** A bet appears among the active bets iff some active player holds it. */
  lemma ActiveBetHolder(ps: seq<PlayerSnapshot>, bet: int)
    ensures bet in ActiveBets(ps) <==> exists k :: 0 <= k < |ps| && ps[k].isActive && ps[k].currentBet == bet
  {
    var bets, active := ActiveBets(ps), ActivePlayers(ps);
    if bet in bets {
      var i :| 0 <= i < |bets| && bets[i] == bet;
      assert active[i] in ps;
    }
    if k :| 0 <= k < |ps| && ps[k].isActive && ps[k].currentBet == bet {
      var i :| 0 <= i < |active| && active[i] == ps[k];
      assert bets[i] == bet;
    }
  }

  function Neg(x: int): int { -x }

  /** `sorted(bets, reverse=True)`. */
  function Descending(bets: seq<int>): seq<int> {
    SortBy(bets, Neg)
  }

  /**
   * The first two entries of the descending sort: the highest bet, and the highest of the
   * others. They differ only when the highest bet is held once, and then every other bet
   * is at most the second.
   */
  function TopTwo(bets: seq<int>): (r: (int, int))
    requires |bets| >= 2
    ensures r.0 in bets && r.1 in bets && r.1 <= r.0
    ensures forall k :: 0 <= k < |bets| ==> bets[k] <= r.0
    ensures r.0 == r.1 ==> multiset(bets)[r.0] >= 2
    ensures r.0 > r.1 ==> multiset(bets)[r.0] == 1
    ensures r.0 > r.1 ==> forall k :: 0 <= k < |bets| && bets[k] != r.0 ==> bets[k] <= r.1
  {
    var d := Descending(bets);
    SortByFacts(bets, Neg);
    TopTwoFacts(bets, d);
    (d[0], d[1])
  }

  lemma TopTwoFacts(bets: seq<int>, d: seq<int>)
    requires |d| == |bets| >= 2
    requires SortedBy(d, Neg) && multiset(d) == multiset(bets)
    ensures d[0] in bets && d[1] in bets && d[1] <= d[0]
    ensures forall k :: 0 <= k < |bets| ==> bets[k] <= d[0]
    ensures d[0] == d[1] ==> multiset(bets)[d[0]] >= 2
    ensures d[0] > d[1] ==> multiset(bets)[d[0]] == 1
    ensures d[0] > d[1] ==> forall k :: 0 <= k < |bets| && bets[k] != d[0] ==> bets[k] <= d[1]
  {
    assert d[0] in multiset(d) && d[1] in multiset(d);
    assert Neg(d[0]) <= Neg(d[1]);
    forall k | 0 <= k < |bets| ensures bets[k] <= d[0] && (bets[k] != d[0] ==> bets[k] <= d[1]) {
      assert bets[k] in multiset(bets);
      var m :| 0 <= m < |d| && d[m] == bets[k];
      assert Neg(d[0]) <= Neg(d[m]);
      if m > 1 {
        assert Neg(d[1]) <= Neg(d[m]);
      }
    }
    assert d == [d[0], d[1]] + d[2..];
    if d[0] > d[1] {
      forall m | 1 <= m < |d| ensures d[m] != d[0] {
        assert Neg(d[1]) <= Neg(d[m]);
      }
      assert d[0] !in d[1..];
      assert d == [d[0]] + d[1..];
    }
  }

  /** Two blind bets on the PRE_FLOP board (a small blind alone, or small then big) are not a raise. */
  predicate PreflopBlinds(s: GameStateSnapshot, highest: int, second: int) {
    s.phase == PreFlop
    && ((second == 0 && highest == s.smallBlindAmount)
        || (second == s.smallBlindAmount && highest == s.bigBlindAmount))
  }

  /** The first active player whose bet is `highest`. */
  function Raiser(s: GameStateSnapshot, highest: int): (r: Option<nat>)
    ensures r.Some? ==>
      r.value < |s.players| && s.players[r.value].isActive && s.players[r.value].currentBet == highest
    ensures r.Some? ==> forall k :: 0 <= k < r.value ==>
      !(s.players[k].isActive && s.players[k].currentBet == highest)
    ensures highest in ActiveBets(s.players) ==> r.Some?
  {
    ActiveBetHolder(s.players, highest);
    FirstIndex(s.players, (p: PlayerSnapshot) => p.isActive && p.currentBet == highest)
  }

  function MinimumRaise(s: GameStateSnapshot): Verdict {
    var bets := ActiveBets(s.players);
    if |bets| < 2 then Pass([])
    else
      var (highest, second) := TopTwo(bets);
      var raise := highest - second;
      if highest > second && raise < s.bigBlindAmount && raise > 0 && !PreflopBlinds(s, highest, second) then
        match Raiser(s, highest)
        case Some(i) =>
          if !s.players[i].isAllIn then Verdict(false, [Named(s.players[i], Warning)]) else Pass([])
        case None => Pass([])
      else Pass([])
  }

  /** The highest active bet is held by one player alone and `second` is the best of the rest. */
  predicate ShortRaise(s: GameStateSnapshot, highest: int, second: int) {
    var bets := ActiveBets(s.players);
    highest in bets && second in bets && second < highest
    && multiset(bets)[highest] == 1
    && (forall k :: 0 <= k < |bets| && bets[k] != highest ==> bets[k] <= second)
    && highest - second < s.bigBlindAmount
    && !PreflopBlinds(s, highest, second)
  }

  /** A unique top bet and the best of the others are exactly what `TopTwo` picks. */
  lemma TopTwoUnique(bets: seq<int>, highest: int, second: int)
    requires highest in bets && second in bets && second < highest
    requires multiset(bets)[highest] == 1
    requires forall k :: 0 <= k < |bets| && bets[k] != highest ==> bets[k] <= second
    ensures |bets| >= 2 && TopTwo(bets) == (highest, second)
  {
    var i :| 0 <= i < |bets| && bets[i] == highest;
    var j :| 0 <= j < |bets| && bets[j] == second;
    assert i != j;
    var r := TopTwo(bets);
    assert r.0 == highest;
    var m :| 0 <= m < |bets| && bets[m] == r.1;
    assert bets[j] <= r.0;
    assert r.0 > r.1;
  }

  /**
   * The minimum-raise check fails exactly when one active player's bet tops every other
   * active bet by less than the big blind, the bets are not the pre-flop blinds, and that
   * player is not all-in.
   */
  lemma MinimumRaiseFails(s: GameStateSnapshot)
    ensures !MinimumRaise(s).passed <==>
      exists highest, second :: ShortRaise(s, highest, second)
        && Raiser(s, highest).Some? && !s.players[Raiser(s, highest).value].isAllIn
  {
    var bets := ActiveBets(s.players);
    if !MinimumRaise(s).passed {
      var (h, sec) := TopTwo(bets);
      assert ShortRaise(s, h, sec);
    }
    if h, sec :| ShortRaise(s, h, sec) && Raiser(s, h).Some? && !s.players[Raiser(s, h).value].isAllIn {
      TopTwoUnique(bets, h, sec);
    }
  }

  // ---------------------------------------------------------------- inactive players

  /** One critical violation per inactive player who still has a current bet. */
  function InactiveViolations(ps: seq<PlayerSnapshot>): (r: seq<Violation>)
    ensures forall k :: 0 <= k < |r| ==> r[k].severity == Critical
    ensures |r| == 0 <==> forall k :: 0 <= k < |ps| ==> ps[k].isActive || ps[k].currentBet <= 0
  {
    if ps == [] then []
    else
      assert forall k :: 1 <= k < |ps| ==> ps[k] == ps[1..][k - 1];
      (if !ps[0].isActive && ps[0].currentBet > 0 then [Named(ps[0], Critical)] else [])
      + InactiveViolations(ps[1..])
  }

  function InactivePlayerRules(s: GameStateSnapshot): Verdict {
    FailOnAny(InactiveViolations(s.players))
  }

  // ---------------------------------------------------------------- the whole check

  /**
   * `_perform_check`: a snapshot the base checker rejects fails at once (`snapshotValid`
   * is that verdict); otherwise the seven checks run in order and all must pass. None is
   * the error the current-bet check raises for a snapshot without players.
   */
  function PerformCheck(s: GameStateSnapshot, snapshotValid: bool): (r: Option<Verdict>)
    ensures !snapshotValid ==> r == Some(Verdict(false, []))
    ensures snapshotValid ==> (r.None? <==> |s.players| == 0)
  {
    if !snapshotValid then Some(Verdict(false, []))
    else match CurrentBetConsistency(s)
      case None => None
      case Some(current) =>
        var limits, allIn, blinds := BettingLimits(s), AllInRules(s), BlindRules(s);
        var phase, minRaise, inactive := PhaseBettingRules(s), MinimumRaise(s), InactivePlayerRules(s);
        Some(Verdict(
          limits.passed && allIn.passed && blinds.passed && current.passed
            && phase.passed && minRaise.passed && inactive.passed,
          limits.violations + allIn.violations + blinds.violations + current.violations
            + phase.violations + minRaise.violations + inactive.violations))
  }

  /**
   * The overall check passes iff every failing check passes: no negative chips, sound
   * blinds, a current bet equal to the top bet, no short raise and no bet by an inactive
   * player. The all-in and phase checks only warn.
   */
  lemma PerformCheckPasses(s: GameStateSnapshot)
    requires |s.players| > 0
    ensures PerformCheck(s, true).Some?
    ensures PerformCheck(s, true).value.passed <==>
      BettingLimits(s).passed && BlindRules(s).passed && CurrentBetConsistency(s).value.passed
      && MinimumRaise(s).passed && InactivePlayerRules(s).passed
  {
  }

  /**
   * On any snapshot its constructors accept, the limit check cannot fail (chips are never
   * negative there) and the current-bet check cannot raise (there is always a player).
   */
  lemma ConstructibleSnapshots(s: GameStateSnapshot)
    requires Constructible(s)
    ensures BettingLimits(s).passed
    ensures CurrentBetConsistency(s).Some?
    ensures PerformCheck(s, true).Some?
  {
    BettingLimitsOnlyNegativeChips(s);
  }

  /** An inactive player who still has a bet in front of them makes the check fail. */
  lemma InactiveBettorFails(s: GameStateSnapshot, i: nat)
    requires i < |s.players| && !s.players[i].isActive && s.players[i].currentBet > 0
    ensures PerformCheck(s, true) == None || !PerformCheck(s, true).value.passed
  {
    if |s.players| > 0 {
      PerformCheckPasses(s);
    }
  }

  // ---------------------------------------------------------------- examples

  /** Two players at 1000 with blinds 10/20, sitting at positions 0 and 1 as in the unit tests. */
  function TwoPlayers(chips0: int, bet0: int, chips1: int, bet1: int, currentBet: int,
                      small: int, big: int): GameStateSnapshot
  {
    var p0 := PlayerSnapshot("player_1", "Player 1", chips0, [], 0, true, chips0 == 0, bet0, bet0, None);
    var p1 := PlayerSnapshot("player_2", "Player 2", chips1, [], 1, true, chips1 == 0, bet1, bet1, None);
    GameStateSnapshot("test_snapshot", "test_game", PreFlop, [p0, p1],
      PotSnapshot(bet0 + bet1, [], bet0 + bet1, ["player_1", "player_2"]),
      [], currentBet, 0, 0, 1, None, small, big)
  }

  /** Both players called the big blind: every check passes and nothing is recorded. */
  lemma CalledBlindsPass()
    ensures PerformCheck(TwoPlayers(980, 20, 980, 20, 20, 10, 20), true).value.passed
    ensures |PerformCheck(TwoPlayers(980, 20, 980, 20, 20, 10, 20), true).value.violations| == 0
  {
    var ok := TwoPlayers(980, 20, 980, 20, 20, 10, 20);
    CalledBlindsRaise(ok);
    CalledBlindsLists(ok);
    CalledBlindsVerdicts(ok);
  }

  lemma CalledBlindsRaise(ok: GameStateSnapshot)
    requires ok == TwoPlayers(980, 20, 980, 20, 20, 10, 20)
    ensures MinimumRaise(ok) == Verdict(true, [])
  {
    assert ActivePlayers(ok.players) == ok.players;
    assert ActiveBets(ok.players) == [20, 20];
    assert TopTwo([20, 20]) == (20, 20);
  }

  lemma CalledBlindsLists(ok: GameStateSnapshot)
    requires ok == TwoPlayers(980, 20, 980, 20, 20, 10, 20)
    ensures LimitViolations(ok.players) == [] && AllInWarnings(ok.players) == []
    ensures InactiveViolations(ok.players) == []
  {
  }

  lemma CalledBlindsVerdicts(ok: GameStateSnapshot)
    requires ok == TwoPlayers(980, 20, 980, 20, 20, 10, 20)
    ensures BlindRules(ok) == Verdict(true, []) && PhaseBettingRules(ok) == Verdict(true, [])
    ensures CurrentBetConsistency(ok) == Some(Verdict(true, []))
  {
  }

  /** A raise of 10 over a big blind of 20 fails the check. */
  lemma ShortRaiseFails()
    ensures !MinimumRaise(TwoPlayers(970, 30, 980, 20, 30, 10, 20)).passed
  {
    var short := TwoPlayers(970, 30, 980, 20, 30, 10, 20);
    HeadsUpBets(short);
    TopTwoOfPair(30, 20);
  }

  /** A line recorded as 30 over two bets of 20 fails the check. */
  lemma WrongLineFails()
    ensures !CurrentBetConsistency(TwoPlayers(980, 20, 980, 20, 30, 10, 20)).value.passed
  {
  }

  /** An all-in for 1000 against a bet of 20 is a full raise: no short-raise failure. */
  lemma AllInRaisePasses()
    ensures MinimumRaise(TwoPlayers(0, 1000, 980, 20, 1000, 10, 20)).passed
  {
    var allIn := TwoPlayers(0, 1000, 980, 20, 1000, 10, 20);
    HeadsUpBets(allIn);
    TopTwoOfPair(1000, 20);
  }

  lemma HeadsUpBets(s: GameStateSnapshot)
    requires |s.players| == 2 && s.players[0].isActive && s.players[1].isActive
    ensures ActiveBets(s.players) == [s.players[0].currentBet, s.players[1].currentBet]
  {
    assert ActivePlayers(s.players[1..]) == [s.players[1]];
    assert ActivePlayers(s.players) == s.players;
  }

  lemma TopTwoOfPair(a: int, b: int)
    requires a > b
    ensures TopTwo([a, b]) == (a, b)
  {
    assert [b][1..] == [] && [a, b][1..] == [b];
    assert SortBy([b], Neg) == InsertBy(b, SortBy([], Neg), Neg) == InsertBy(b, [], Neg) == [b];
    assert SortBy([a, b], Neg) == InsertBy(a, [b], Neg);
    assert Neg(a) <= Neg(b);
  }
}
