/**
 * The v2 game-state health checker: seven checks that each list the issues they find in a
 * snapshot, an overall verdict that is healthy iff no issue is critical, and a summary
 * that counts the issues by severity.
 */
module Health {
  import opened Common
  import opened Phases
  import opened Players
  import V2 = V2State

  datatype IssueType =
    | ChipConservationViolation | InvalidPlayerCount | InvalidCurrentPlayer | InvalidBetAmounts
    | InvalidCommunityCards | DuplicateCards | InvalidPotAmount

  datatype IssueSeverity = Critical | Warning | Info

  datatype HealthIssue = HealthIssue(issueType: IssueType, severity: IssueSeverity)

  /**
   * What the checker reads of a seat. The fields are plain integers: the checker also
   * looks at states in which a caller has set a bet or a chip count below zero.
   */
  datatype SeatView = SeatView(seat: int, chips: int, currentBet: int, status: SeatStatus, holeCards: seq<Card>)

  datatype StateView = StateView(
    phase: Phase,
    pot: int,
    currentBet: int,
    currentPlayer: Option<int>,
    players: seq<SeatView>,
    communityCards: seq<Card>)

  datatype Summary = Summary(
    totalIssues: nat,
    criticalIssues: nat,
    warningIssues: nat,
    infoIssues: nat,
    checkedAtPhase: Phase,
    totalPlayers: nat,
    activePlayers: nat)

  datatype HealthCheckResult = HealthCheckResult(isHealthy: bool, issues: seq<HealthIssue>, summary: Summary)

  // ---------------------------------------------------------------- counting

  function SeverityCount(issues: seq<HealthIssue>, severity: IssueSeverity): (r: nat)
    ensures r == 0 <==> forall k :: 0 <= k < |issues| ==> issues[k].severity != severity
    ensures r <= |issues|
  {
    if issues == [] then 0
    else
      assert forall k :: 1 <= k < |issues| ==> issues[k] == issues[1..][k - 1];
      (if issues[0].severity == severity then 1 else 0) + SeverityCount(issues[1..], severity)
  }

  /** Every issue has exactly one of the three severities, so the three counts add up to the total. */
  lemma {:induction false} SeverityCountsPartition(issues: seq<HealthIssue>)
    ensures SeverityCount(issues, Critical) + SeverityCount(issues, Warning) + SeverityCount(issues, Info) == |issues|
  {
    if issues != [] {
      SeverityCountsPartition(issues[1..]);
    }
  }

  function ActiveCount(ps: seq<SeatView>): (r: nat)
    ensures r == 0 <==> forall k :: 0 <= k < |ps| ==> ps[k].status != Active
  {
    if ps == [] then 0
    else
      assert forall k :: 1 <= k < |ps| ==> ps[k] == ps[1..][k - 1];
      (if ps[0].status == Active then 1 else 0) + ActiveCount(ps[1..])
  }

  function ChipsOf(p: SeatView): int { p.chips }
  function BetOf(p: SeatView): int { p.currentBet }

  // ---------------------------------------------------------------- the seven checks

  /** Checked only when an expected total is set: chips, current bets and pot must add up to it. */
  function ChipConservation(expected: Option<int>, s: StateView): (r: seq<HealthIssue>)
    ensures |r| <= 1
    ensures |r| == 1 <==>
      expected.Some? && SumOf(s.players, ChipsOf) + SumOf(s.players, BetOf) + s.pot != expected.value
    ensures forall k :: 0 <= k < |r| ==> r[k] == HealthIssue(ChipConservationViolation, Critical)
  {
    match expected
    case None => []
    case Some(total) =>
      var actual := SumOf(s.players, ChipsOf) + SumOf(s.players, BetOf) + s.pot;
      if actual != total then [HealthIssue(ChipConservationViolation, Critical)] else []
  }

  /** Fewer than two players is critical, more than ten a warning, nobody ACTIVE outside SHOWDOWN critical. */
  function PlayerCount(s: StateView): (r: seq<HealthIssue>)
    ensures forall k :: 0 <= k < |r| ==> r[k].issueType == InvalidPlayerCount
    ensures HealthIssue(InvalidPlayerCount, Critical) in r <==>
      |s.players| < 2 || (s.phase != Showdown && ActiveCount(s.players) == 0)
    ensures HealthIssue(InvalidPlayerCount, Warning) in r <==> |s.players| > 10
  {
    var n := |s.players|;
    (if n < 2 then [HealthIssue(InvalidPlayerCount, Critical)] else [])
    + (if n > 10 then [HealthIssue(InvalidPlayerCount, Warning)] else [])
    + (if s.phase != Showdown && ActiveCount(s.players) < 1 then [HealthIssue(InvalidPlayerCount, Critical)] else [])
  }

  /** An index outside the player list is critical; a current player who is not ACTIVE is a warning. */
  function CurrentPlayer(s: StateView): (r: seq<HealthIssue>)
    ensures |r| <= 1
    ensures |r| == 1 && r[0].severity == Critical <==>
      s.currentPlayer.Some? && !(0 <= s.currentPlayer.value < |s.players|)
    ensures |r| == 1 && r[0].severity == Warning <==>
      s.currentPlayer.Some? && 0 <= s.currentPlayer.value < |s.players|
      && s.players[s.currentPlayer.value].status != Active
    ensures forall k :: 0 <= k < |r| ==> r[k].issueType == InvalidCurrentPlayer
  {
    match s.currentPlayer
    case None => []
    case Some(i) =>
      if i < 0 || i >= |s.players| then [HealthIssue(InvalidCurrentPlayer, Critical)]
      else if s.players[i].status != Active then [HealthIssue(InvalidCurrentPlayer, Warning)]
      else []
  }

  /**
   * Per seat: a negative bet; a positive bet with negative chips behind; and the heuristic
   * for a bet too large for the chips left, which fires only once the bet is at least
   * twice a positive remaining stack.
   */
  function SeatBetIssues(p: SeatView): (r: seq<HealthIssue>)
    ensures |r| == 0 <==> p.currentBet >= 0 && (p.currentBet > 0 ==> p.chips >= 0 && (p.chips == 0 || p.currentBet < 2 * p.chips))
    ensures forall k :: 0 <= k < |r| ==> r[k] == HealthIssue(InvalidBetAmounts, Critical)
  {
    var bad := HealthIssue(InvalidBetAmounts, Critical);
    (if p.currentBet < 0 then [bad] else [])
    + (if p.currentBet > 0 && p.chips < 0 then [bad] else [])
    + (if p.currentBet > 0 && p.chips > 0 && p.currentBet > p.chips && p.currentBet >= 2 * p.chips then [bad] else [])
  }

  function SeatsBetIssues(ps: seq<SeatView>): (r: seq<HealthIssue>)
    ensures |r| == 0 <==> forall k :: 0 <= k < |ps| ==> |SeatBetIssues(ps[k])| == 0
    ensures forall k :: 0 <= k < |r| ==> r[k] == HealthIssue(InvalidBetAmounts, Critical)
  {
    if ps == [] then []
    else
      assert forall k :: 1 <= k < |ps| ==> ps[k] == ps[1..][k - 1];
      SeatBetIssues(ps[0]) + SeatsBetIssues(ps[1..])
  }

  function BetAmounts(s: StateView): (r: seq<HealthIssue>)
    ensures |r| == 0 <==> s.currentBet >= 0 && forall k :: 0 <= k < |s.players| ==> |SeatBetIssues(s.players[k])| == 0
    ensures forall k :: 0 <= k < |r| ==> r[k] == HealthIssue(InvalidBetAmounts, Critical)
  {
    SeatsBetIssues(s.players)
    + (if s.currentBet < 0 then [HealthIssue(InvalidBetAmounts, Critical)] else [])
  }

  /** The board size each betting street expects; INIT and FINISHED are not checked. */
  function ExpectedBoard(p: Phase): Option<nat> {
    match p
    case PreFlop => Some(0)
    case Flop => Some(3)
    case Turn => Some(4)
    case River => Some(5)
    case Showdown => Some(5)
    case _ => None
  }

  function CommunityCards(s: StateView): (r: seq<HealthIssue>)
    ensures |r| <= 1
    ensures |r| == 1 <==> ExpectedBoard(s.phase).Some? && |s.communityCards| != ExpectedBoard(s.phase).value
    ensures forall k :: 0 <= k < |r| ==> r[k] == HealthIssue(InvalidCommunityCards, Warning)
  {
    match ExpectedBoard(s.phase)
    case None => []
    case Some(n) => if |s.communityCards| != n then [HealthIssue(InvalidCommunityCards, Warning)] else []
  }

  /** The board followed by every seat's hole cards, in seat order. */
  function VisibleCards(ps: seq<SeatView>): seq<Card> {
    if ps == [] then [] else ps[0].holeCards + VisibleCards(ps[1..])
  }

  /** The card keys seen again while walking `cards` with `seen` already collected. */
  function RepeatedKeys(cards: seq<Card>, seen: set<Card>): (r: set<Card>)
    ensures r == {} <==> Distinct(cards) && forall k :: 0 <= k < |cards| ==> cards[k] !in seen
    decreases |cards|
  {
    if cards == [] then {}
    else
      var rest := cards[1..];
      assert forall k :: 1 <= k < |cards| ==> cards[k] == rest[k - 1];
      (if cards[0] in seen then {cards[0]} else {}) + RepeatedKeys(rest, seen + {cards[0]})
  }

  /** One critical issue when any visible card, board or hole, appears twice. */
  function DuplicateCardIssues(s: StateView): (r: seq<HealthIssue>)
    ensures |r| <= 1
    ensures |r| == 1 <==> !Distinct(s.communityCards + VisibleCards(s.players))
    ensures forall k :: 0 <= k < |r| ==> r[k] == HealthIssue(DuplicateCards, Critical)
  {
    if RepeatedKeys(s.communityCards + VisibleCards(s.players), {}) != {} then [HealthIssue(DuplicateCards, Critical)]
    else []
  }

  function PotAmount(s: StateView): (r: seq<HealthIssue>)
    ensures |r| <= 1
    ensures |r| == 1 <==> s.pot < 0
    ensures forall k :: 0 <= k < |r| ==> r[k] == HealthIssue(InvalidPotAmount, Critical)
  {
    if s.pot < 0 then [HealthIssue(InvalidPotAmount, Critical)] else []
  }

  // ---------------------------------------------------------------- the whole check

  /** Every issue found, in the order the checks run. */
  function AllIssues(expected: Option<int>, s: StateView): seq<HealthIssue> {
    ChipConservation(expected, s) + PlayerCount(s) + CurrentPlayer(s) + BetAmounts(s)
    + CommunityCards(s) + DuplicateCardIssues(s) + PotAmount(s)
  }

  /** `check_health` for a given expected total. */
  function CheckHealthOf(expected: Option<int>, s: StateView): (r: HealthCheckResult)
    ensures r.issues == AllIssues(expected, s)
    ensures r.isHealthy <==> forall k :: 0 <= k < |r.issues| ==> r.issues[k].severity != Critical
    ensures r.summary.totalIssues == |r.issues|
    ensures r.summary.criticalIssues + r.summary.warningIssues + r.summary.infoIssues == r.summary.totalIssues
    ensures r.summary.totalPlayers == |s.players| && r.summary.activePlayers == ActiveCount(s.players)
  {
    var issues := AllIssues(expected, s);
    var critical := SeverityCount(issues, Critical);
    SeverityCountsPartition(issues);
    HealthCheckResult(
      critical == 0,
      issues,
      Summary(|issues|, critical, SeverityCount(issues, Warning), SeverityCount(issues, Info),
              s.phase, |s.players|, ActiveCount(s.players)))
  }

  /** No critical issue in a list. */
  predicate CriticalFree(issues: seq<HealthIssue>) {
    forall k :: 0 <= k < |issues| ==> issues[k].severity != Critical
  }

  lemma CriticalFreeAppend(a: seq<HealthIssue>, b: seq<HealthIssue>)
    ensures CriticalFree(a + b) <==> CriticalFree(a) && CriticalFree(b)
  {
    assert forall k :: 0 <= k < |a| ==> (a + b)[k] == a[k];
    assert forall k :: 0 <= k < |b| ==> (a + b)[|a| + k] == b[k];
  }

  /** A list holding only critical issues is free of them iff it is empty. */
  lemma OnlyCritical(issues: seq<HealthIssue>)
    requires forall k :: 0 <= k < |issues| ==> issues[k].severity == Critical
    ensures CriticalFree(issues) <==> |issues| == 0
  {
    if |issues| > 0 {
      assert issues[0].severity == Critical;
    }
  }

  lemma PlayerCountCritical(s: StateView)
    ensures CriticalFree(PlayerCount(s)) <==>
      |s.players| >= 2 && (s.phase != Showdown ==> ActiveCount(s.players) > 0)
  {
    var c := PlayerCount(s);
    var bad := HealthIssue(InvalidPlayerCount, Critical);
    if bad in c {
      var k :| 0 <= k < |c| && c[k] == bad;
    }
    if !CriticalFree(c) {
      var k :| 0 <= k < |c| && c[k].severity == Critical;
      assert c[k] == bad;
    }
  }

  /** The verdict is the conjunction of the seven checks' own critical-freedom. */
  lemma HealthyIsCriticalFree(expected: Option<int>, s: StateView)
    ensures CheckHealthOf(expected, s).isHealthy <==>
      CriticalFree(ChipConservation(expected, s)) && CriticalFree(PlayerCount(s))
      && CriticalFree(CurrentPlayer(s)) && CriticalFree(BetAmounts(s))
      && CriticalFree(CommunityCards(s)) && CriticalFree(DuplicateCardIssues(s))
      && CriticalFree(PotAmount(s))
  {
    var c1, c2, c3, c4 := ChipConservation(expected, s), PlayerCount(s), CurrentPlayer(s), BetAmounts(s);
    var c5, c6, c7 := CommunityCards(s), DuplicateCardIssues(s), PotAmount(s);
    assert AllIssues(expected, s) == c1 + c2 + c3 + c4 + c5 + c6 + c7;
    CriticalFreeAppend(c1, c2);
    CriticalFreeAppend(c1 + c2, c3);
    CriticalFreeAppend(c1 + c2 + c3, c4);
    CriticalFreeAppend(c1 + c2 + c3 + c4, c5);
    CriticalFreeAppend(c1 + c2 + c3 + c4 + c5, c6);
    CriticalFreeAppend(c1 + c2 + c3 + c4 + c5 + c6, c7);
  }

  lemma ConservationCritical(expected: Option<int>, s: StateView)
    ensures CriticalFree(ChipConservation(expected, s)) <==>
      (expected.Some? ==> SumOf(s.players, ChipsOf) + SumOf(s.players, BetOf) + s.pot == expected.value)
  {
    OnlyCritical(ChipConservation(expected, s));
  }

  lemma CurrentPlayerCritical(s: StateView)
    ensures CriticalFree(CurrentPlayer(s)) <==>
      (s.currentPlayer.Some? ==> 0 <= s.currentPlayer.value < |s.players|)
  {
  }

  lemma SeparateChecksCritical(s: StateView)
    ensures CriticalFree(BetAmounts(s)) <==> |BetAmounts(s)| == 0
    ensures CriticalFree(CommunityCards(s))
    ensures CriticalFree(DuplicateCardIssues(s)) <==> Distinct(s.communityCards + VisibleCards(s.players))
    ensures CriticalFree(PotAmount(s)) <==> s.pot >= 0
  {
    OnlyCritical(BetAmounts(s));
    OnlyCritical(DuplicateCardIssues(s));
    OnlyCritical(PotAmount(s));
  }

  /**
   * The state is healthy iff, check by check: the chips add up (when a total is expected),
   * there are at least two players and someone ACTIVE outside SHOWDOWN, the current player
   * index is in range, no bet or stack is invalid, no visible card repeats, and the pot is
   * not negative. Too many players, an inactive current player and a board of the wrong
   * size are warnings and do not matter.
   */
  lemma HealthyIff(expected: Option<int>, s: StateView)
    ensures CheckHealthOf(expected, s).isHealthy <==>
      (expected.Some? ==> SumOf(s.players, ChipsOf) + SumOf(s.players, BetOf) + s.pot == expected.value)
      && |s.players| >= 2 && (s.phase != Showdown ==> ActiveCount(s.players) > 0)
      && (s.currentPlayer.Some? ==> 0 <= s.currentPlayer.value < |s.players|)
      && |BetAmounts(s)| == 0
      && Distinct(s.communityCards + VisibleCards(s.players))
      && s.pot >= 0
  {
    HealthyIsCriticalFree(expected, s);
    ConservationCritical(expected, s);
    PlayerCountCritical(s);
    CurrentPlayerCritical(s);
    SeparateChecksCritical(s);
  }

  // ---------------------------------------------------------------- the checker object

  /** `GameStateHealthChecker`: the one field is the expected chip total, if any. */
  class GameStateHealthChecker {
    var expectedTotalChips: Option<int>

    constructor (expected: Option<int>)
      ensures expectedTotalChips == expected
    {
      expectedTotalChips := expected;
    }

    function CheckHealth(s: StateView): (r: HealthCheckResult)
      reads this
      ensures r == CheckHealthOf(expectedTotalChips, s)
    {
      CheckHealthOf(expectedTotalChips, s)
    }

    /** From now on chip conservation is checked against `total`. */
    method SetExpectedTotalChips(total: int)
      modifies this
      ensures expectedTotalChips == Some(total)
    {
      expectedTotalChips := Some(total);
    }
  }

  // ---------------------------------------------------------------- the engine's own snapshots

  function SeatOf(p: Player): SeatView {
    SeatView(p.seat, p.chips, p.currentBet, p.status, p.holeCards)
  }

  /** The checker's view of a snapshot of the v2 game state. */
  function View(s: V2.GameSnapshot): StateView {
    StateView(s.phase, s.pot, s.currentBet,
      match s.currentPlayer case None => None case Some(i) => Some(i),
      seq(|s.players|, k requires 0 <= k < |s.players| => SeatOf(s.players[k])),
      s.communityCards)
  }

  /**
   * The engine stores chips and bets as naturals, so on its own snapshots only the
   * bet-to-stack heuristic and a negative table bet can raise a bet-amount issue.
   */
  lemma EngineBetIssues(s: V2.GameSnapshot)
    ensures |BetAmounts(View(s))| == 0 <==>
      s.currentBet >= 0
      && forall k :: 0 <= k < |s.players| ==>
           s.players[k].chips == 0 || s.players[k].currentBet < 2 * s.players[k].chips
  {
    var v := View(s);
    assert forall k :: 0 <= k < |s.players| ==> v.players[k] == SeatOf(s.players[k]);
  }

  // ---------------------------------------------------------------- examples

  function TwoSeats(chips0: int, bet0: int, chips1: int, pot: int, currentBet: int): StateView {
    StateView(PreFlop, pot, currentBet, Some(0),
      [SeatView(0, chips0, bet0, Active, []), SeatView(1, chips1, 0, Active, [])], [])
  }

  lemma TwoSeatsFacts(chips0: int, bet0: int, chips1: int, pot: int, currentBet: int)
    ensures SumOf(TwoSeats(chips0, bet0, chips1, pot, currentBet).players, ChipsOf) == chips0 + chips1
    ensures SumOf(TwoSeats(chips0, bet0, chips1, pot, currentBet).players, BetOf) == bet0
    ensures ActiveCount(TwoSeats(chips0, bet0, chips1, pot, currentBet).players) == 2
    ensures VisibleCards(TwoSeats(chips0, bet0, chips1, pot, currentBet).players) == []
  {
    var ps := TwoSeats(chips0, bet0, chips1, pot, currentBet).players;
    assert ps[..1] == [ps[0]];
    assert [ps[0]][..0] == [];
    assert SumOf(ps[..1], ChipsOf) == chips0 && SumOf(ps[..1], BetOf) == bet0;
    assert SumOf(ps, ChipsOf) == SumOf(ps[..1], ChipsOf) + ChipsOf(ps[1]);
    assert SumOf(ps, BetOf) == SumOf(ps[..1], BetOf) + BetOf(ps[1]);
    assert ps[1..][1..] == [];
    assert VisibleCards(ps[1..]) == ps[1].holeCards + VisibleCards([]);
  }

  /** Two players at 1000 each against an expected 2000: healthy, with no issue at all. */
  lemma HealthyExample()
    ensures CheckHealthOf(Some(2000), TwoSeats(1000, 0, 1000, 0, 0)).isHealthy
    ensures CheckHealthOf(Some(2000), TwoSeats(1000, 0, 1000, 0, 0)).issues == []
  {
    var s := TwoSeats(1000, 0, 1000, 0, 0);
    TwoSeatsFacts(1000, 0, 1000, 0, 0);
    assert |ChipConservation(Some(2000), s)| == 0;
    assert |PlayerCount(s)| == 0;
    assert |CurrentPlayer(s)| == 0;
    assert |BetAmounts(s)| == 0 by {
      assert forall k :: 0 <= k < |s.players| ==> |SeatBetIssues(s.players[k])| == 0;
    }
    assert |CommunityCards(s)| == 0;
    assert |DuplicateCardIssues(s)| == 0;
    assert |PotAmount(s)| == 0;
  }

  /** 900 + 1000 + a pot of 50 against an expected 2000: one critical conservation issue. */
  lemma ConservationExample()
    ensures ChipConservation(Some(2000), TwoSeats(900, 0, 1000, 50, 0)) == [HealthIssue(ChipConservationViolation, Critical)]
    ensures !CheckHealthOf(Some(2000), TwoSeats(900, 0, 1000, 50, 0)).isHealthy
  {
    var s := TwoSeats(900, 0, 1000, 50, 0);
    TwoSeatsFacts(900, 0, 1000, 50, 0);
    ConservationCritical(Some(2000), s);
    HealthyIsCriticalFree(Some(2000), s);
  }

  /** A bet of 200 with 100 behind trips the heuristic; a bet of 150 with 100 behind does not. */
  lemma BetHeuristicExamples()
    ensures |SeatBetIssues(SeatView(0, 100, 200, Active, []))| == 1
    ensures |SeatBetIssues(SeatView(0, 100, 150, Active, []))| == 0
  {
  }
}
