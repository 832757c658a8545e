/**
 * The v3 phase-consistency invariant checker: the board size each phase expects, unique
 * board cards, hole-card counts, the active players and the acting seat, pot arithmetic,
 * and the table of phase transitions it accepts.
 */
module PhaseConsistency {
  import opened Common
  import opened Phases
  import opened Snapshots

  // ---------------------------------------------------------------- tables

  /** How many community cards each phase shows. */
  function ExpectedCommunityCards(p: Phase): (r: nat)
    ensures r <= 5
    ensures r == 0 <==> p == Init || p == PreFlop
  {
    match p
    case Init => 0
    case PreFlop => 0
    case Flop => 3
    case Turn => 4
    case River => 5
    case Showdown => 5
    case Finished => 5
  }

  /** The phases each phase may move to. */
  function ValidTransitions(p: Phase): set<Phase> {
    match p
    case Init => {PreFlop}
    case PreFlop => {Flop, Showdown, Finished}
    case Flop => {Turn, Showdown, Finished}
    case Turn => {River, Showdown, Finished}
    case River => {Showdown, Finished}
    case Showdown => {Finished}
    case Finished => {}
  }

  /** The place of a phase in the course of a hand. */
  function Position(p: Phase): nat {
    match p
    case Init => 0
    case PreFlop => 1
    case Flop => 2
    case Turn => 3
    case River => 4
    case Showdown => 5
    case Finished => 6
  }

  /** `check_phase_transition`: accepted iff the target is listed for the source. */
  function CheckPhaseTransition(from: Phase, to: Phase): (r: Verdict)
    ensures r.passed <==> to in ValidTransitions(from)
    ensures !r.passed ==> r.violations == [Violation(Critical, None)]
  {
    if to !in ValidTransitions(from) then Verdict(false, [Violation(Critical, None)])
    else Verdict(true, [])
  }

  /**
   * Every accepted transition moves strictly forward and never shrinks the expected board;
   * FINISHED has no successor, and every phase after INIT may jump to FINISHED.
   */
  lemma TransitionsMoveForward(from: Phase, to: Phase)
    ensures CheckPhaseTransition(from, to).passed ==>
      Position(from) < Position(to) && ExpectedCommunityCards(from) <= ExpectedCommunityCards(to)
    ensures !CheckPhaseTransition(Finished, to).passed
    ensures from != Init && from != Finished ==> CheckPhaseTransition(from, Finished).passed
  {
  }

  /** A run of accepted transitions: each step is one the checker accepts. */
  predicate AcceptedRun(run: seq<Phase>) {
    forall i :: 0 <= i < |run| - 1 ==> CheckPhaseTransition(run[i], run[i + 1]).passed
  }

  /** Positions strictly increase along an accepted run, so a hand makes at most six moves. */
  lemma {:induction false} AcceptedRunIsShort(run: seq<Phase>)
    requires AcceptedRun(run) && |run| > 0
    ensures Position(run[|run| - 1]) >= Position(run[0]) + |run| - 1
    ensures |run| <= 7
  {
    if |run| > 1 {
      var init := run[..|run| - 1];
      assert AcceptedRun(init) by {
        forall i | 0 <= i < |init| - 1 ensures CheckPhaseTransition(init[i], init[i + 1]).passed {
          assert init[i] == run[i] && init[i + 1] == run[i + 1];
        }
      }
      AcceptedRunIsShort(init);
      TransitionsMoveForward(run[|run| - 2], run[|run| - 1]);
    }
  }

  // ---------------------------------------------------------------- community cards

  function CommunityCardsCount(s: GameStateSnapshot): (r: Verdict)
    ensures r.passed <==> |s.communityCards| == ExpectedCommunityCards(s.phase)
  {
    FailOnAny(if |s.communityCards| != ExpectedCommunityCards(s.phase) then [Violation(Critical, None)] else [])
  }

  /**
   * The cards met again after `seen` already holds them, in board order (the duplicates
   * the uniqueness check reports). A card's (suit, rank) key is the card itself here.
   */
  function Duplicates(cards: seq<Card>, seen: set<Card>): (r: seq<Card>)
    ensures |r| == 0 <==> Distinct(cards) && forall k :: 0 <= k < |cards| ==> cards[k] !in seen
    decreases |cards|
  {
    if cards == [] then []
    else
      var rest := cards[1..];
      assert forall k :: 1 <= k < |cards| ==> cards[k] == rest[k - 1];
      if cards[0] in seen then [cards[0]] + Duplicates(rest, seen)
      else Duplicates(rest, seen + {cards[0]})
  }

  function CommunityCardsUniqueness(s: GameStateSnapshot): (r: Verdict)
    ensures r.passed <==> Distinct(s.communityCards)
  {
    if |s.communityCards| == 0 then Verdict(true, [])
    else FailOnAny(if |Duplicates(s.communityCards, {})| > 0 then [Violation(Critical, None)] else [])
  }

  // ---------------------------------------------------------------- hole cards

  /** Per player: two cards for an active player outside INIT, and never more than two. */
  function HoleCardViolations(ps: seq<PlayerSnapshot>, phase: Phase): (r: seq<Violation>)
    ensures forall k :: 0 <= k < |r| ==> r[k].severity == Critical
    ensures |r| == 0 <==> forall k :: 0 <= k < |ps| ==>
      (ps[k].isActive && phase != Init ==> |ps[k].holeCards| == 2) && |ps[k].holeCards| <= 2
  {
    if ps == [] then []
    else
      var p, rest := ps[0], ps[1..];
      assert forall k :: 1 <= k < |ps| ==> ps[k] == rest[k - 1];
      (if p.isActive && |p.holeCards| != 2 && phase != Init then [Violation(Critical, Some(p.playerId))] else [])
      + (if |p.holeCards| > 2 then [Violation(Critical, Some(p.playerId))] else [])
      + HoleCardViolations(rest, phase)
  }

  function PlayerHoleCards(s: GameStateSnapshot): Verdict {
    FailOnAny(HoleCardViolations(s.players, s.phase))
  }

  // ---------------------------------------------------------------- active players

  /** Python's `players[i]`: a negative index counts from the end; None is an IndexError. */
  function PyAt(ps: seq<PlayerSnapshot>, i: int): (r: Option<PlayerSnapshot>)
    ensures 0 <= i < |ps| ==> r == Some(ps[i])
    ensures r.None? <==> i >= |ps| || i < -|ps|
  {
    if 0 <= i < |ps| then Some(ps[i])
    else if -|ps| <= i < 0 then Some(ps[|ps| + i])
    else None
  }

  /** Players who are active and still have chips to act with. */
  function ActionableCount(ps: seq<PlayerSnapshot>): (r: nat)
    ensures r == 0 <==> forall k :: 0 <= k < |ps| ==> !(ps[k].isActive && ps[k].chips > 0)
  {
    if ps == [] then 0
    else
      assert forall k :: 1 <= k < |ps| ==> ps[k] == ps[1..][k - 1];
      (if ps[0].isActive && ps[0].chips > 0 then 1 else 0) + ActionableCount(ps[1..])
  }

  /** The seat the snapshot says is to act may act, or is all-in. */
  predicate CanBeActive(p: PlayerSnapshot) {
    p.isActive && (p.chips > 0 || p.isAllIn)
  }

  /**
   * The count test (none active outside FINISHED is critical, several in FINISHED only
   * informational) and the acting-seat test (out of range, or a seat that can neither act
   * nor is all-in while someone else could act, is critical; when nobody can act it is
   * only a warning). None is the IndexError of a position below minus the player count.
   */
  function ActivePlayersConsistency(s: GameStateSnapshot): (r: Option<Verdict>)
    ensures r.None? <==> s.activePlayerPosition.Some? && s.activePlayerPosition.value < -|s.players|
    ensures r.Some? ==> (r.value.passed <==>
      (s.phase != Finished ==> |ActivePlayers(s.players)| >= 1)
      && (s.activePlayerPosition.Some? ==> var pos := s.activePlayerPosition.value;
            pos < |s.players|
            && (CanBeActive(PyAt(s.players, pos).value) || ActionableCount(s.players) == 0)))
  {
    var count := |ActivePlayers(s.players)|;
    var countViolations :=
      if s.phase == Finished then (if count > 1 then [Violation(Info, None)] else [])
      else (if count < 1 then [Violation(Critical, None)] else []);
    var countPassed := s.phase == Finished || count >= 1;
    match s.activePlayerPosition
    case None => Some(Verdict(countPassed, countViolations))
    case Some(pos) =>
      if pos >= |s.players| then
        Some(Verdict(false, countViolations + [Violation(Critical, None)]))
      else match PyAt(s.players, pos)
        case None => None
        case Some(p) =>
          if CanBeActive(p) then Some(Verdict(countPassed, countViolations))
          else if ActionableCount(s.players) == 0 then
            Some(Verdict(countPassed, countViolations + [Violation(Warning, None)]))
          else Some(Verdict(false, countViolations + [Violation(Critical, Some(p.playerId))]))
  }

  // ---------------------------------------------------------------- pot

  /** `sum(side_pot.get('amount', 0) for side_pot in side_pots)`. */
  function SidePotsTotal(pots: seq<Option<int>>): int {
    if pots == [] then 0
    else (match pots[0] case Some(a) => a case None => 0) + SidePotsTotal(pots[1..])
  }

  function PotConsistency(s: GameStateSnapshot): (r: Verdict)
    ensures r.passed <==>
      s.pot.totalPot >= s.pot.mainPot && s.pot.totalPot == s.pot.mainPot + SidePotsTotal(s.pot.sidePots)
  {
    var expected := s.pot.mainPot + SidePotsTotal(s.pot.sidePots);
    FailOnAny(
      (if s.pot.totalPot < s.pot.mainPot then [Violation(Critical, None)] else [])
      + (if s.pot.totalPot != expected then [Violation(Critical, None)] else []))
  }

  /** Side pots that hold nothing negative cannot make the total fall below the main pot. */
  lemma {:induction false} SidePotsTotalNonNegative(pots: seq<Option<int>>)
    requires forall k :: 0 <= k < |pots| ==> pots[k].None? || pots[k].value >= 0
    ensures SidePotsTotal(pots) >= 0
  {
    if pots != [] {
      assert forall k :: 1 <= k < |pots| ==> pots[k] == pots[1..][k - 1];
      SidePotsTotalNonNegative(pots[1..]);
    }
  }

  /**
   * With no negative side pot, the pot check passes exactly when the total is the main pot
   * plus the side pots: its first test is then implied by the second.
   */
  lemma PotConsistencyIsSum(s: GameStateSnapshot)
    requires forall k :: 0 <= k < |s.pot.sidePots| ==> s.pot.sidePots[k].None? || s.pot.sidePots[k].value >= 0
    ensures PotConsistency(s).passed <==> s.pot.totalPot == s.pot.mainPot + SidePotsTotal(s.pot.sidePots)
  {
    SidePotsTotalNonNegative(s.pot.sidePots);
  }

  // ---------------------------------------------------------------- betting

  /** Bets in INIT are warned about, one warning per betting player; the check never fails. */
  function InitBetWarnings(ps: seq<PlayerSnapshot>): (r: seq<Violation>)
    ensures |r| == 0 <==> forall k :: 0 <= k < |ps| ==> ps[k].currentBet <= 0 && ps[k].totalBetThisHand <= 0
  {
    if ps == [] then []
    else
      assert forall k :: 1 <= k < |ps| ==> ps[k] == ps[1..][k - 1];
      (if ps[0].currentBet > 0 || ps[0].totalBetThisHand > 0 then [Violation(Warning, Some(ps[0].playerId))] else [])
      + InitBetWarnings(ps[1..])
  }

  function BettingConsistency(s: GameStateSnapshot): (r: Verdict)
    ensures r.passed
    ensures s.phase != Init ==> r.violations == []
    ensures s.phase == Init ==> (r.violations == [] <==>
      s.currentBet <= 0 && forall k :: 0 <= k < |s.players| ==>
        s.players[k].currentBet <= 0 && s.players[k].totalBetThisHand <= 0)
  {
    if s.phase == Init then
      Pass((if s.currentBet > 0 then [Violation(Warning, None)] else []) + InitBetWarnings(s.players))
    else Pass([])
  }

  // ---------------------------------------------------------------- the whole check

  /**
   * `_perform_check`: a snapshot the base checker rejects fails at once; otherwise the six
   * checks run in order and all must pass. None is an IndexError from the acting-seat test.
   */
  function PerformCheck(s: GameStateSnapshot, snapshotValid: bool): (r: Option<Verdict>)
    ensures !snapshotValid ==> r == Some(Verdict(false, []))
    ensures snapshotValid ==> (r.None? <==> ActivePlayersConsistency(s).None?)
  {
    if !snapshotValid then Some(Verdict(false, []))
    else match ActivePlayersConsistency(s)
      case None => None
      case Some(active) =>
        var count, unique, holes := CommunityCardsCount(s), CommunityCardsUniqueness(s), PlayerHoleCards(s);
        var pot, betting := PotConsistency(s), BettingConsistency(s);
        Some(Verdict(
          count.passed && unique.passed && holes.passed && active.passed && pot.passed && betting.passed,
          count.violations + unique.violations + holes.violations + active.violations
            + pot.violations + betting.violations))
  }

  /**
   * The whole check passes iff the board has the phase's size and no repeated card, the
   * hole-card counts are right, the active players and acting seat are consistent, and the
   * pot adds up.
   */
  lemma PerformCheckPasses(s: GameStateSnapshot)
    requires ActivePlayersConsistency(s).Some?
    ensures PerformCheck(s, true).Some?
    ensures PerformCheck(s, true).value.passed <==>
      |s.communityCards| == ExpectedCommunityCards(s.phase)
      && Distinct(s.communityCards)
      && HoleCardViolations(s.players, s.phase) == []
      && ActivePlayersConsistency(s).value.passed
      && PotConsistency(s).passed
  {
  }

  /** The same card twice on the board fails the check whatever else holds. */
  lemma RepeatedBoardCardFails(s: GameStateSnapshot, i: nat, j: nat)
    requires i < j < |s.communityCards| && s.communityCards[i] == s.communityCards[j]
    requires ActivePlayersConsistency(s).Some?
    ensures !PerformCheck(s, true).value.passed
  {
    PerformCheckPasses(s);
  }
}
