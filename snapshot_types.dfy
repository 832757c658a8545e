/**
 * The immutable game-state snapshot the v3 invariant checkers and the snapshot manager
 * work on, and the verdict a checker reports.
 * The snapshot type definitions and the base checker class are not part of this model; the
 * fields below are the ones the checkers and the snapshot manager read and write.
 */
module Snapshots {
  import opened Common
  import opened Phases

  datatype PlayerSnapshot = PlayerSnapshot(
    playerId: string,
    name: string,
    chips: int,
    holeCards: seq<Card>,
    position: int,
    isActive: bool,
    isAllIn: bool,
    currentBet: int,
    totalBetThisHand: int,
    lastAction: Option<string>)

  /** A side pot is a dictionary of which only the optional `amount` entry is read. */
  datatype PotSnapshot = PotSnapshot(
    mainPot: int,
    sidePots: seq<Option<int>>,
    totalPot: int,
    eligiblePlayers: seq<string>)

  datatype GameStateSnapshot = GameStateSnapshot(
    snapshotId: string,
    gameId: string,
    phase: Phase,
    players: seq<PlayerSnapshot>,
    pot: PotSnapshot,
    communityCards: seq<Card>,
    currentBet: int,
    dealerPosition: int,
    smallBlindPosition: int,
    bigBlindPosition: int,
    activePlayerPosition: Option<int>,
    smallBlindAmount: int,
    bigBlindAmount: int)

  datatype Severity = Critical | Warning | Info

  /** One recorded violation: its severity and, where the checker names one, the player. */
  datatype Violation = Violation(severity: Severity, playerId: Option<string>)

  /** What one check returns, with the violations it recorded along the way, in order. */
  datatype Verdict = Verdict(passed: bool, violations: seq<Violation>)

  /** A check that passes whatever it recorded (its violations are warnings only). */
  function Pass(warnings: seq<Violation>): Verdict {
    Verdict(true, warnings)
  }

  /** A check that fails exactly when it recorded at least one violation. */
  function FailOnAny(vs: seq<Violation>): (r: Verdict)
    ensures r.violations == vs
    ensures r.passed <==> |vs| == 0
  {
    Verdict(vs == [], vs)
  }

  /** The players the snapshot marks active, in seat order. */
  function ActivePlayers(ps: seq<PlayerSnapshot>): (r: seq<PlayerSnapshot>)
    ensures |r| <= |ps|
    ensures forall k :: 0 <= k < |r| ==> r[k].isActive && r[k] in ps
    ensures forall k :: 0 <= k < |ps| && ps[k].isActive ==> ps[k] in r
  {
    if ps == [] then []
    else (if ps[0].isActive then [ps[0]] else []) + ActivePlayers(ps[1..])
  }

  /**
   * What the snapshot constructors accept: a non-empty player tuple; players with a
   * non-empty id, no negative chips and at most two hole cards; a pot whose main pot is not
   * negative and whose total is at least the main pot. Anything else raises ValueError.
   */
  predicate Constructible(s: GameStateSnapshot) {
    |s.players| > 0
    && (forall k :: 0 <= k < |s.players| ==>
          s.players[k].playerId != "" && s.players[k].chips >= 0 && |s.players[k].holeCards| <= 2)
    && s.pot.mainPot >= 0 && s.pot.totalPot >= s.pot.mainPot
  }
}
