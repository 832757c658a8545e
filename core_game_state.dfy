/**
 * The first engine's table state (`GameState` of the core game logic): phase, board, pot,
 * players, dealer and turn, and the street's betting bookkeeping, with the operations that
 * move the turn round the table, open a street, post the blinds and collect bets, and the
 * transactional phase transition that validates the result and rolls back on failure.
 */
module CoreGameState {
  import opened Common
  import opened Players
  import opened Seating
  import opened Phases

  /** The checks of `__post_init__`, in the order it makes them. */
  datatype ConfigError = NegativePot | NegativeCurrentBet | SmallBlindNotPositive | BigBlindNotAboveSmall

  datatype StateError =
    | SeatNotListed                                  // `all_seats.index(...)` raised
    | BlindRefused(reason: PlayerError)              // a blind's `bet` raised
    | BoardMismatch(phase: Phase, expected: nat, actual: nat)
    | TransitionFailed                               // the transition's own block raised

  /** The first check `__post_init__` fails, or None when the values are accepted. */
  function ConfigCheck(pot: int, currentBet: int, smallBlind: int, bigBlind: int): (r: Option<ConfigError>)
    ensures r.None? <==> pot >= 0 && currentBet >= 0 && smallBlind > 0 && bigBlind > smallBlind
    ensures pot < 0 ==> r == Some(NegativePot)
    ensures pot >= 0 && currentBet < 0 ==> r == Some(NegativeCurrentBet)
  {
    if pot < 0 then Some(NegativePot)
    else if currentBet < 0 then Some(NegativeCurrentBet)
    else if smallBlind <= 0 then Some(SmallBlindNotPositive)
    else if bigBlind <= smallBlind then Some(BigBlindNotAboveSmall)
    else None
  }

  /** Every field of the state: what `clone()` copies and `__dict__.update` restores. */
  datatype TableValue = TableValue(
    phase: Phase,
    communityCards: seq<Card>,
    pot: int,
    players: seq<Player>,
    dealerPosition: nat,
    currentPlayer: nat,
    currentBet: int,
    lastRaiser: Option<nat>,
    streetIndex: nat,
    smallBlind: int,
    bigBlind: int)

  /** A state the constructor accepts, with seat ids unique at the table. */
  predicate ValidValue(v: TableValue) {
    DistinctSeats(v.players) && ConfigCheck(v.pot, v.currentBet, v.smallBlind, v.bigBlind).None?
  }

  /** All current bets of `ps` are equal (`len(set(current_bets)) <= 1`). */
  predicate SameBets(ps: seq<Player>) {
    forall i, j :: 0 <= i < |ps| && 0 <= j < |ps| ==> ps[i].currentBet == ps[j].currentBet
  }

  /** The player the pre-flop big-blind option looks for. */
  predicate BigBlindCanAct(p: Player) {
    p.isBigBlind && CanAct(p)
  }

  /** Board size `_validate_state_invariants` expects in each phase, where it checks one. */
  function ExpectedBoard(p: Phase): (r: Option<nat>)
    ensures r.Some? <==> p in BettingOrder
  {
    match p
    case PreFlop => Some(0)
    case Flop => Some(3)
    case Turn => Some(4)
    case River => Some(5)
    case Showdown => Some(5)
    case _ => None
  }

  /**
   * Along the order the expected board grows by the flop's three cards, then one card for the
   * turn and one for the river, and stays at five for the showdown.
   */
  lemma BoardGrowsByStreet(p: Phase)
    requires p in BettingOrder && p != Showdown
    ensures ExpectedBoard(NextInOrder(p)).value
      == ExpectedBoard(p).value + (if p == PreFlop then 3 else if p == River then 0 else 1)
  {
  }

  /**
   * `_validate_state_invariants`: a board whose size is not the phase's is rejected. Chips and
   * bets are natural numbers here, so its two sign checks always pass.
   */
  function InvariantCheck(v: TableValue): (r: Option<StateError>)
    ensures r.None? <==> ExpectedBoard(v.phase).None? || |v.communityCards| == ExpectedBoard(v.phase).value
    ensures r.Some? ==> r.value.BoardMismatch? && r.value.phase == v.phase && r.value.actual == |v.communityCards|
  {
    match ExpectedBoard(v.phase)
    case None => None
    case Some(expected) =>
      if |v.communityCards| != expected then Some(BoardMismatch(v.phase, expected, |v.communityCards|))
      else None
  }

  /** The first players' sum of bets, one more player at a time. */
  lemma BetsPrefixStep(ps: seq<Player>, i: nat)
    requires i < |ps|
    ensures TotalBets(ps[..i + 1]) == TotalBets(ps[..i]) + ps[i].currentBet
  {
    assert ps[..i + 1] == ps[..i] + [ps[i]];
    SumOfAppend(ps[..i], [ps[i]], BetOf);
    assert [ps[i]][..0] == [];
  }

  /** Clearing every bet keeps seats, statuses and chips, and leaves no bet on the table. */
  lemma {:induction false} ResetBetsFacts(ps: seq<Player>)
    ensures DistinctSeats(ps) ==> DistinctSeats(ResetBets(ps))
    ensures TotalBets(ResetBets(ps)) == 0
    ensures TotalChips(ResetBets(ps)) == TotalChips(ps)
  {
    if ps != [] {
      var init := ps[..|ps| - 1];
      ResetBetsFacts(init);
      assert ResetBets(ps)[..|ps| - 1] == ResetBets(init);
    }
  }

  /** Once every bet is cleared, all ACTIVE players stand at the same bet. */
  lemma FreshStreet(ps: seq<Player>)
    ensures SameBets(ActivePlayers(ResetBets(ps)))
  {
    var a := ActivePlayers(ResetBets(ps));
    FilterMembers(ResetBets(ps), IsActive);
    forall i | 0 <= i < |a| ensures a[i].currentBet == 0 {
      assert a[i] in ResetBets(ps);
    }
  }

  // ---------------------------------------------------------------------------------------
  // The blind seats

  /** The non-OUT players whose seats `set_blinds` and the post-flop rule walk round. */
  function InPlaySeats(ps: seq<Player>): (r: seq<nat>)
    requires DistinctSeats(ps)
    ensures Increasing(r) && |r| == CountIf(ps, NotOut)
    ensures forall y :: y in r <==> exists k :: 0 <= k < |ps| && NotOut(ps[k]) && ps[k].seat == y
  {
    FilterSeats(ps, NotOut);
    SortedSeats(Filter(ps, NotOut))
  }

  /**
   * The (small blind, big blind) seats `set_blinds` picks from the ascending list of non-OUT
   * seats: heads-up the dealer and the other seat; otherwise the next two seats after the
   * dealer. None where the dealer is not listed and `index` raises.
   */
  function BlindSeatsIn(seats: seq<nat>, dealer: nat): (r: Option<(nat, nat)>)
    ensures r.None? <==> dealer !in seats
    ensures r.Some? ==> r.value.0 in seats && r.value.1 in seats
  {
    match IndexOf(seats, dealer)
    case None => None
    case Some(di) =>
      var n := |seats|;
      if n == 2 then Some((dealer, seats[1 - di])) else Some((seats[(di + 1) % n], seats[(di + 2) % n]))
  }

  /** The blind seats of a table. */
  function BlindSeats(ps: seq<Player>, dealer: nat): (r: Option<(nat, nat)>)
    requires DistinctSeats(ps)
    ensures r.None? <==> !SeatIs(ps, dealer, NotOut)
    ensures r.Some? ==> SeatIs(ps, r.value.0, NotOut) && SeatIs(ps, r.value.1, NotOut)
  {
    var r := BlindSeatsIn(InPlaySeats(ps), dealer);
    SeatIsListed(ps, dealer, NotOut);
    if r.Some? then
      SeatIsListed(ps, r.value.0, NotOut);
      SeatIsListed(ps, r.value.1, NotOut);
      r
    else r
  }

  /** The post-flop lap over the non-OUT seats, from the seat after the dealer, chooses by the first-to-act rule. */
  lemma PostflopLap(ps: seq<Player>, dealer: nat, di: nat, start: nat, step: Option<nat>)
    requires DistinctSeats(ps) && di < |InPlaySeats(ps)| && InPlaySeats(ps)[di] == dealer
    requires start == (di + 1) % |InPlaySeats(ps)|
    requires var seats := InPlaySeats(ps);
      && (step.Some? ==>
        && step.value < |seats| && SeatIs(ps, At(seats, start, step.value), CanAct)
        && forall j :: 0 <= j < step.value ==> !SeatIs(ps, At(seats, start, j), CanAct))
      && (step.None? ==> forall j :: 0 <= j < |seats| ==> !SeatIs(ps, At(seats, start, j), CanAct))
    ensures FirstOrFallback(ps, dealer, CanAct, if step.Some? then At(InPlaySeats(ps), start, step.value) else dealer)
  {
    var seats := InPlaySeats(ps);
    forall k | 0 <= k < |ps| && SeatIs(ps, ps[k].seat, CanAct) ensures ps[k].seat in seats {
      PlayerAtListed(ps, k);
    }
    LapFromNext(ps, seats, dealer, di, start, CanAct, step);
  }

  /** In the list of non-OUT seats, the next entry is the first non-OUT seat clockwise. */
  lemma NextInPlay(ps: seq<Player>, i: nat)
    requires DistinctSeats(ps) && 2 <= |InPlaySeats(ps)| && i < |InPlaySeats(ps)|
    ensures var seats := InPlaySeats(ps);
      FirstClockwise(ps, seats[i], NotOut, seats[(i + 1) % |seats|])
  {
    var seats := InPlaySeats(ps);
    var n := |seats|;
    forall k | 0 <= k < |ps| && SeatIs(ps, ps[k].seat, NotOut) ensures ps[k].seat in seats {
      PlayerAtListed(ps, k);
    }
    ModOnce(i + 1, n);
    assert At(seats, i, 1) == seats[(i + 1) % n] && seats[(i + 1) % n] in seats;
    SeatIsListed(ps, seats[(i + 1) % n], NotOut);
    ScanIsClockwise(ps, seats, seats[i], i, NotOut, Some(1));
  }

  /**
   * The blinds follow the clockwise order of non-OUT seats: heads-up the dealer posts the small
   * blind and the other seat the big one; with three or more, the small blind is the first
   * non-OUT seat after the dealer and the big blind the first after that; alone, the dealer
   * posts both.
   */
  lemma BlindSeatsClockwise(ps: seq<Player>, dealer: nat)
    requires DistinctSeats(ps) && BlindSeats(ps, dealer).Some?
    ensures var (sb, bb) := BlindSeats(ps, dealer).value;
      && (CountIf(ps, NotOut) == 1 ==> sb == dealer && bb == dealer)
      && (CountIf(ps, NotOut) == 2 ==> sb == dealer && FirstClockwise(ps, dealer, NotOut, bb))
      && (CountIf(ps, NotOut) >= 3 ==> FirstClockwise(ps, dealer, NotOut, sb) && FirstClockwise(ps, sb, NotOut, bb))
  {
    var n := |InPlaySeats(ps)|;
    if n == 1 {
      LoneBlinds(ps, dealer);
    } else if n == 2 {
      HeadsUpBlinds(ps, dealer);
    } else {
      RingBlinds(ps, dealer);
    }
  }

  /** Alone at the table, the dealer posts both blinds. */
  lemma LoneBlinds(ps: seq<Player>, dealer: nat)
    requires DistinctSeats(ps) && BlindSeats(ps, dealer).Some? && |InPlaySeats(ps)| == 1
    ensures BlindSeats(ps, dealer).value == (dealer, dealer)
  {
    var seats := InPlaySeats(ps);
    var di := IndexOf(seats, dealer).value;
    assert seats[(di + 1) % 1] == dealer && seats[(di + 2) % 1] == dealer;
  }

  /** Heads-up, the dealer posts the small blind and the other non-OUT seat the big one. */
  lemma HeadsUpBlinds(ps: seq<Player>, dealer: nat)
    requires DistinctSeats(ps) && BlindSeats(ps, dealer).Some? && |InPlaySeats(ps)| == 2
    ensures BlindSeats(ps, dealer).value.0 == dealer
    ensures FirstClockwise(ps, dealer, NotOut, BlindSeats(ps, dealer).value.1)
  {
    var seats := InPlaySeats(ps);
    var di := IndexOf(seats, dealer).value;
    ModOnce(di + 1, 2);
    NextInPlay(ps, di);
  }

  /** With three or more non-OUT seats, the blinds are the next two non-OUT seats clockwise from the dealer. */
  lemma RingBlinds(ps: seq<Player>, dealer: nat)
    requires DistinctSeats(ps) && BlindSeats(ps, dealer).Some? && |InPlaySeats(ps)| >= 3
    ensures var (sb, bb) := BlindSeats(ps, dealer).value;
      FirstClockwise(ps, dealer, NotOut, sb) && FirstClockwise(ps, sb, NotOut, bb)
  {
    var seats := InPlaySeats(ps);
    var n := |seats|;
    var di := IndexOf(seats, dealer).value;
    var next := (di + 1) % n;
    ModOnce(di + 1, n);
    ModOnce(di + 2, n);
    ModOnce(next + 1, n);
    assert (next + 1) % n == (di + 2) % n;
    NextInPlay(ps, di);
    NextInPlay(ps, next);
  }

  /** A player with both blind flags cleared. */
  function ClearFlags(p: Player): (r: Player)
    ensures r.seat == p.seat && r.status == p.status && Stack(r) == Stack(p)
  {
    p.(isSmallBlind := false, isBigBlind := false)
  }

  /** A posting leaves the status alone, except that a player whose blind takes every chip is ALL_IN. */
  predicate BlindStatus(before: Player, after: Player) {
    after.status == before.status || (before.status == Active && after.status == AllIn)
  }

  /** The refusal, if any, and the table after one blind posting; a refused player keeps the flag. */
  function PostSeat(ps: seq<Player>, seat: nat, amount: int, small: bool): (Option<StateError>, seq<Player>) {
    match IndexOfSeat(ps, seat)
    case None => (None, ps)
    case Some(i) =>
      var flagged := if small then ps[i].(isSmallBlind := true) else ps[i].(isBigBlind := true);
      match Bet(flagged, amount)
      case Err(e) => (Some(BlindRefused(e)), ps[i := flagged])
      case Ok((q, _)) => (None, ps[i := q])
  }

  /** A posting keeps every seat and stack, fails exactly when some player's `PostOne` fails, and otherwise is `PostOne` player by player. */
  lemma PostSeatFacts(ps: seq<Player>, seat: nat, amount: int, small: bool)
    requires DistinctSeats(ps)
    ensures var (err, q) := PostSeat(ps, seat, amount, small);
      && |q| == |ps| && DistinctSeats(q)
      && (forall k :: 0 <= k < |q| ==> q[k].seat == ps[k].seat && Stack(q[k]) == Stack(ps[k]))
      && (err.None? <==> forall k :: 0 <= k < |ps| ==> PostOne(ps[k], seat, amount, small).Ok?)
      && (err.None? ==> forall k :: 0 <= k < |q| ==> q[k] == PostOne(ps[k], seat, amount, small).value)
      && (err.Some? ==> err.value.BlindRefused?)
  {
    var (err, q) := PostSeat(ps, seat, amount, small);
    match IndexOfSeat(ps, seat)
    case None =>
    case Some(i) =>
      PostOnlyAt(ps, i, seat, amount, small);
      SameSeatsDistinct(ps, q);
  }

  /** A posting keeps the seats distinct. */
  lemma PostSeatDistinct(ps: seq<Player>, seat: nat, amount: int, small: bool)
    requires DistinctSeats(ps)
    ensures DistinctSeats(PostSeat(ps, seat, amount, small).1)
  {
    SameSeatsDistinct(ps, PostSeat(ps, seat, amount, small).1);
  }

  /** With distinct seats, a posting at the seat of player `i` leaves every other player alone. */
  lemma PostOnlyAt(ps: seq<Player>, i: nat, seat: nat, amount: int, small: bool)
    requires DistinctSeats(ps) && i < |ps| && ps[i].seat == seat
    ensures forall k :: 0 <= k < |ps| && k != i ==> PostOne(ps[k], seat, amount, small) == Ok(ps[k])
  {
  }

  /**
   * One blind posting: the player at `seat` is flagged as the small (or big) blind and calls
   * `bet(amount)`; any other player is left alone.
   */
  function PostOne(p: Player, seat: nat, amount: int, small: bool): (r: Result<Player, PlayerError>)
    ensures p.seat != seat ==> r == Ok(p)
    ensures r.Ok? ==> r.value.seat == p.seat && Stack(r.value) == Stack(p)
    ensures r.Ok? ==> r.value.holeCards == p.holeCards && r.value.isDealer == p.isDealer && BlindStatus(p, r.value)
    ensures p.seat == seat && amount >= 0 ==> (r.Ok? <==> CanAct(p))
    ensures p.seat == seat && r.Ok? ==>
      && (small ==> r.value.isSmallBlind && r.value.isBigBlind == p.isBigBlind)
      && (!small ==> r.value.isBigBlind && r.value.isSmallBlind == p.isSmallBlind)
      && r.value.currentBet == p.currentBet + Min(amount, p.chips)
  {
    if p.seat != seat then Ok(p)
    else
      var flagged := if small then p.(isSmallBlind := true) else p.(isBigBlind := true);
      match Bet(flagged, amount)
      case Err(e) => Err(e)
      case Ok((q, _)) => Ok(q)
  }

  /** Both postings in turn: the small blind at `sb`, then the big blind at `bb`. */
  function PostBoth(p: Player, sb: nat, bb: nat, small: int, big: int): Result<Player, PlayerError> {
    match PostOne(p, sb, small, true)
    case Err(e) => Err(e)
    case Ok(q) => PostOne(q, bb, big, false)
  }

  /**
   * What `set_blinds` makes of one player once the blind seats are known: flags cleared, then
   * the small blind posted at `sb` and the big blind at `bb`. A player at neither seat only
   * loses the flags; a blind player who cannot act makes the posting fail.
   */
  function Blinded(p: Player, sb: nat, bb: nat, small: int, big: int): (r: Result<Player, PlayerError>)
    ensures r.Ok? ==> (r.value.isSmallBlind <==> p.seat == sb) && (r.value.isBigBlind <==> p.seat == bb)
    ensures r.Ok? ==> r.value.seat == p.seat && Stack(r.value) == Stack(p)
    ensures r.Ok? ==> r.value.holeCards == p.holeCards && r.value.isDealer == p.isDealer && BlindStatus(p, r.value)
    ensures p.seat != sb && p.seat != bb ==> r == Ok(ClearFlags(p))
    ensures sb != bb && small >= 0 && big >= 0 && (p.seat == sb || p.seat == bb) ==> (r.Ok? <==> CanAct(p))
    ensures sb != bb && p.seat == sb && r.Ok? ==> r.value.currentBet == p.currentBet + Min(small, p.chips)
    ensures sb != bb && p.seat == bb && r.Ok? ==> r.value.currentBet == p.currentBet + Min(big, p.chips)
  {
    PostBoth(ClearFlags(p), sb, bb, small, big)
  }

  /** A refused small blind means some player's postings fail. */
  lemma SmallBlindRefused(ps: seq<Player>, sb: nat, bb: nat, small: int, big: int)
    requires !forall k :: 0 <= k < |ps| ==> PostOne(ps[k], sb, small, true).Ok?
    ensures !forall k :: 0 <= k < |ps| ==> PostBoth(ps[k], sb, bb, small, big).Ok?
  {
    var k :| 0 <= k < |ps| && PostOne(ps[k], sb, small, true).Err?;
    assert PostBoth(ps[k], sb, bb, small, big).Err?;
  }

  /** Posting the small blind and then the big blind, player by player, is `PostBoth`. */
  lemma BothPosted(start: seq<Player>, mid: seq<Player>, after: seq<Player>, sb: nat, bb: nat, small: int, big: int, ok: bool)
    requires forall k :: 0 <= k < |start| ==> PostOne(start[k], sb, small, true).Ok?
    requires |mid| == |start| && forall k :: 0 <= k < |mid| ==> mid[k] == PostOne(start[k], sb, small, true).value
    requires ok <==> forall k :: 0 <= k < |mid| ==> PostOne(mid[k], bb, big, false).Ok?
    requires ok ==> |after| == |mid| && forall k :: 0 <= k < |after| ==> after[k] == PostOne(mid[k], bb, big, false).value
    ensures ok <==> forall k :: 0 <= k < |start| ==> PostBoth(start[k], sb, bb, small, big).Ok?
    ensures ok ==> forall k :: 0 <= k < |after| ==> after[k] == PostBoth(start[k], sb, bb, small, big).value
  {
    forall k | 0 <= k < |start|
      ensures PostBoth(start[k], sb, bb, small, big) == PostOne(mid[k], bb, big, false)
    {
    }
  }

  /** Clearing the flags and then posting both blinds is `Blinded`, player by player. */
  lemma ClearedThenPosted(before: seq<Player>, cleared: seq<Player>, after: seq<Player>,
                          sb: nat, bb: nat, small: int, big: int, ok: bool)
    requires |cleared| == |before| && forall k :: 0 <= k < |before| ==> cleared[k] == ClearFlags(before[k])
    requires ok <==> forall k :: 0 <= k < |cleared| ==> PostBoth(cleared[k], sb, bb, small, big).Ok?
    requires ok ==> |after| == |cleared| && forall k :: 0 <= k < |after| ==> after[k] == PostBoth(cleared[k], sb, bb, small, big).value
    ensures ok <==> forall k :: 0 <= k < |before| ==> Blinded(before[k], sb, bb, small, big).Ok?
    ensures ok ==> forall k :: 0 <= k < |after| ==> after[k] == Blinded(before[k], sb, bb, small, big).value
  {
  }

  /** The seats of the non-OUT players in list order, for two lists that agree on seats and statuses. */
  lemma {:induction false} InPlayIgnoresFlags(a: seq<Player>, b: seq<Player>)
    requires |a| == |b| && forall k :: 0 <= k < |a| ==> a[k].seat == b[k].seat && a[k].status == b[k].status
    ensures Seats(Filter(a, NotOut)) == Seats(Filter(b, NotOut))
  {
    if a != [] {
      var n := |a| - 1;
      InPlayIgnoresFlags(a[..n], b[..n]);
      var fa, fb := Filter(a[..n], NotOut), Filter(b[..n], NotOut);
      var la, lb := if NotOut(a[n]) then [a[n]] else [], if NotOut(b[n]) then [b[n]] else [];
      assert Filter(a, NotOut) == fa + la && Filter(b, NotOut) == fb + lb;
      assert Seats(fa + la) == Seats(fa) + Seats(la);
      assert Seats(fb + lb) == Seats(fb) + Seats(lb);
    }
  }

  /** Clearing the blind flags does not move the blind seats. */
  lemma BlindSeatsIgnoreFlags(a: seq<Player>, b: seq<Player>, dealer: nat)
    requires DistinctSeats(a)
    requires |a| == |b| && forall k :: 0 <= k < |a| ==> a[k].seat == b[k].seat && a[k].status == b[k].status
    ensures DistinctSeats(b) && BlindSeats(a, dealer) == BlindSeats(b, dealer)
  {
    assert DistinctSeats(b) by {
      forall i, j | 0 <= i < j < |b| ensures b[i].seat != b[j].seat {
        assert a[i].seat != a[j].seat;
      }
    }
    InPlayIgnoresFlags(a, b);
    FilterSeats(a, NotOut);
    FilterSeats(b, NotOut);
    var fa, fb := Filter(a, NotOut), Filter(b, NotOut);
    assert SortedSeats(fa) == SortSeats(Seats(fa));
    assert SortedSeats(fb) == SortSeats(Seats(fb));
    assert InPlaySeats(a) == InPlaySeats(b);
  }

  /**
   * After the blinds are posted, exactly one player holds the small-blind flag and exactly one
   * the big-blind flag.
   */
  lemma {:induction false} OneFlagEach(ps: seq<Player>, sb: nat, bb: nat)
    requires DistinctSeats(ps) && SeatTaken(ps, sb) && SeatTaken(ps, bb)
    requires forall k :: 0 <= k < |ps| ==> (ps[k].isSmallBlind <==> ps[k].seat == sb)
    requires forall k :: 0 <= k < |ps| ==> (ps[k].isBigBlind <==> ps[k].seat == bb)
    ensures CountIf(ps, IsSmallBlind) == 1 && CountIf(ps, IsBigBlind) == 1
  {
    OneAtSeat(ps, sb, IsSmallBlind);
    OneAtSeat(ps, bb, IsBigBlind);
  }

  predicate IsSmallBlind(p: Player) { p.isSmallBlind }
  predicate IsBigBlind(p: Player) { p.isBigBlind }

  /** With distinct seats, the players holding a flag exactly at one taken seat number one. */
  lemma {:induction false} OneAtSeat(ps: seq<Player>, seat: nat, flag: Player -> bool)
    requires DistinctSeats(ps)
    requires forall k :: 0 <= k < |ps| ==> (flag(ps[k]) <==> ps[k].seat == seat)
    ensures CountIf(ps, flag) == (if SeatTaken(ps, seat) then 1 else 0)
  {
    if ps != [] {
      var init, last := ps[..|ps| - 1], ps[|ps| - 1];
      assert DistinctSeats(init);
      OneAtSeat(init, seat, flag);
      if last.seat == seat {
        assert !SeatTaken(init, seat);
      }
      assert SeatTaken(ps, seat) <==> SeatTaken(init, seat) || last.seat == seat;
    }
  }

  /** The pre-flop big-blind option of a table, as `GameState.BigBlindOption` reads it. */
  function BigBlindOptionOf(v: TableValue): Option<bool> {
    if v.phase != PreFlop then None
    else match FirstIndex(v.players, BigBlindCanAct)
      case None => None
      case Some(i) => if v.currentBet == v.players[i].currentBet then Some(v.players[i].acted) else None
  }

  /** Whether a table's betting round is over, as `GameState.IsBettingRoundComplete` decides it. */
  function RoundComplete(v: TableValue): bool {
    var active := ActivePlayers(v.players);
    if |active| <= 1 then true
    else if !SameBets(active) then false
    else if v.lastRaiser.Some? then v.currentPlayer == v.lastRaiser.value
    else match BigBlindOptionOf(v)
      case Some(acted) => acted
      case None => v.streetIndex >= |active|
  }

  class GameState {
    var phase: Phase
    var communityCards: seq<Card>
    var pot: int
    var players: seq<Player>
    var dealerPosition: nat
    var currentPlayer: nat
    var currentBet: int
    var lastRaiser: Option<nat>
    var streetIndex: nat
    var smallBlind: int
    var bigBlind: int

    /** The state as a value. */
    function Value(): TableValue
      reads this
    {
      TableValue(phase, communityCards, pot, players, dealerPosition, currentPlayer, currentBet,
                 lastRaiser, streetIndex, smallBlind, bigBlind)
    }

    ghost predicate Valid()
      reads this
    {
      ValidValue(Value())
    }

    constructor (v: TableValue)
      requires ValidValue(v)
      ensures Value() == v && Valid()
    {
      phase, communityCards, pot, players := v.phase, v.communityCards, v.pot, v.players;
      dealerPosition, currentPlayer, currentBet := v.dealerPosition, v.currentPlayer, v.currentBet;
      lastRaiser, streetIndex, smallBlind, bigBlind := v.lastRaiser, v.streetIndex, v.smallBlind, v.bigBlind;
    }

    /** The dataclass constructor: `__post_init__` raises on the first value it rejects. */
    static method Create(phase: Phase, players: seq<Player>, dealerPosition: nat, pot: int, currentBet: int,
                         smallBlind: int, bigBlind: int)
      returns (r: Result<GameState, ConfigError>)
      requires DistinctSeats(players)
      ensures r.Err? <==> ConfigCheck(pot, currentBet, smallBlind, bigBlind).Some?
      ensures r.Err? ==> r.error == ConfigCheck(pot, currentBet, smallBlind, bigBlind).value
      ensures r.Ok? ==> fresh(r.value) && r.value.Valid()
      ensures r.Ok? ==>
        r.value.Value() == TableValue(phase, [], pot, players, dealerPosition, 0, currentBet, None, 0, smallBlind, bigBlind)
    {
      var check := ConfigCheck(pot, currentBet, smallBlind, bigBlind);
      if check.Some? {
        return Err(check.value);
      }
      var s := new GameState(TableValue(phase, [], pot, players, dealerPosition, 0, currentBet, None, 0, smallBlind, bigBlind));
      return Ok(s);
    }

    /** `state.__dict__.update(snapshot.__dict__)` */
    method Restore(v: TableValue)
      requires ValidValue(v)
      modifies this
      ensures Value() == v && Valid()
    {
      phase, communityCards, pot, players := v.phase, v.communityCards, v.pot, v.players;
      dealerPosition, currentPlayer, currentBet := v.dealerPosition, v.currentPlayer, v.currentBet;
      lastRaiser, streetIndex, smallBlind, bigBlind := v.lastRaiser, v.streetIndex, v.smallBlind, v.bigBlind;
    }

    // -------------------------------------------------------------------------------------
    // Turn order

    /**
     * `advance_current_player`: the turn passes to the first seat clockwise (ascending seat
     * ids, wrapping) whose player can act. With nobody ACTIVE, or nobody else able to act,
     * the turn stays and the answer is False; a current seat that is not at the table makes
     * `index` raise.
     */
    method AdvanceCurrentPlayer() returns (r: Result<bool, StateError>)
      requires Valid()
      modifies this
      ensures Value() == old(Value()).(currentPlayer := currentPlayer)
      ensures r.Err? <==> ActivePlayers(players) != [] && !SeatTaken(players, old(currentPlayer))
      ensures r == Ok(true) ==> FirstClockwise(players, old(currentPlayer), CanAct, currentPlayer)
      ensures r != Ok(true) ==> currentPlayer == old(currentPlayer)
      ensures r == Ok(false) ==> ActivePlayers(players) == [] || !OtherSeatIs(players, old(currentPlayer), CanAct)
    {
      if ActivePlayers(players) == [] {
        return Ok(false);
      }
      var seats := SortedSeats(players);
      var ci := IndexOf(seats, currentPlayer);
      if ci.None? {
        return Err(SeatNotListed);
      }
      var step := Scan(players, seats, ci.value, 1, |seats|, CanAct);
      ScanIsClockwise(players, seats, currentPlayer, ci.value, CanAct, step);
      if step.Some? {
        currentPlayer := At(seats, ci.value, step.value);
        return Ok(true);
      }
      return Ok(false);
    }

    /**
     * `_set_first_to_act` (pre-flop): a full lap from the seat after the dealer, the dealer
     * tried last, picks the first player who can act; nobody means the dealer.
     */
    method SetFirstToAct() returns (err: Option<StateError>)
      requires Valid()
      modifies this
      ensures Value() == old(Value()).(currentPlayer := currentPlayer)
      ensures err.None? <==> SeatTaken(players, dealerPosition)
      ensures err.None? ==> FirstOrFallback(players, dealerPosition, CanAct, currentPlayer)
      ensures err.Some? ==> err.value == SeatNotListed && currentPlayer == old(currentPlayer)
    {
      var seats := SortedSeats(players);
      var di := IndexOf(seats, dealerPosition);
      if di.None? {
        return Some(SeatNotListed);
      }
      var step := Scan(players, seats, di.value, 1, |seats| + 1, CanAct);
      FullLapScan(players, seats, dealerPosition, di.value, CanAct, step);
      if step.Some? {
        currentPlayer := At(seats, di.value, step.value);
      } else {
        currentPlayer := dealerPosition;
      }
      return None;
    }

    /**
     * `_set_postflop_first_to_act`: over the non-OUT seats, a lap that starts at the seat after
     * the dealer (heads-up, the other seat) picks the first player who can act; nobody means
     * the dealer. With no non-OUT seat nothing changes; a dealer who is not a non-OUT seat
     * makes `index` raise.
     */
    method SetPostflopFirstToAct() returns (err: Option<StateError>)
      requires Valid()
      modifies this
      ensures Value() == old(Value()).(currentPlayer := currentPlayer)
      ensures CountIf(players, NotOut) == 0 ==> err.None? && currentPlayer == old(currentPlayer)
      ensures CountIf(players, NotOut) > 0 ==> (err.None? <==> SeatIs(players, dealerPosition, NotOut))
      ensures CountIf(players, NotOut) > 0 && err.None? ==> FirstOrFallback(players, dealerPosition, CanAct, currentPlayer)
      ensures err.Some? ==> err.value == SeatNotListed && currentPlayer == old(currentPlayer)
    {
      var seats := InPlaySeats(players);
      if |seats| == 0 {
        return None;
      }
      SeatIsListed(players, dealerPosition, NotOut);
      var di := IndexOf(seats, dealerPosition);
      if di.None? {
        return Some(SeatNotListed);
      }
      var n := |seats|;
      var start: nat := if n == 2 then 1 - di.value else (di.value + 1) % n;
      assert start == (di.value + 1) % n by {
        ModOnce(di.value + 1, n);
      }
      var step := Scan(players, seats, start, 0, n, CanAct);
      PostflopLap(players, dealerPosition, di.value, start, step);
      if step.Some? {
        currentPlayer := At(seats, start, step.value);
      } else {
        currentPlayer := dealerPosition;
      }
      return None;
    }

    // -------------------------------------------------------------------------------------
    // Streets

    /**
     * The pre-flop big-blind option: when the first big-blind player who can act has matched
     * `current_bet`, whether that player has acted yet.
     */
    function BigBlindOption(): (r: Option<bool>)
      reads this
      ensures r.Some? ==>
        && phase == PreFlop && FirstIndex(players, BigBlindCanAct).Some?
        && players[FirstIndex(players, BigBlindCanAct).value].currentBet == currentBet
        && r.value == players[FirstIndex(players, BigBlindCanAct).value].acted
      ensures r.None? ==>
        || phase != PreFlop || FirstIndex(players, BigBlindCanAct).None?
        || players[FirstIndex(players, BigBlindCanAct).value].currentBet != currentBet
    {
      BigBlindOptionOf(Value())
    }

    /**
     * `is_betting_round_complete`: over with at most one ACTIVE player; never while ACTIVE
     * bets differ; otherwise over once the turn is back at the last raiser, or, without one,
     * once the big blind has used the pre-flop option, or else once every ACTIVE player has
     * had a turn this street.
     */
    function IsBettingRoundComplete(): (r: bool)
      reads this
      ensures |ActivePlayers(players)| <= 1 ==> r
      ensures |ActivePlayers(players)| >= 2 && !SameBets(ActivePlayers(players)) ==> !r
      ensures |ActivePlayers(players)| >= 2 && SameBets(ActivePlayers(players)) && lastRaiser.Some? ==>
        (r <==> currentPlayer == lastRaiser.value)
      ensures |ActivePlayers(players)| >= 2 && SameBets(ActivePlayers(players)) && lastRaiser.None? ==>
        (r <==> if BigBlindOption().Some? then BigBlindOption().value else streetIndex >= |ActivePlayers(players)|)
    {
      RoundComplete(Value())
    }

    /**
     * `start_new_betting_round`: the street's bet, raiser, action count and every player's bet
     * and last action are cleared; the turn goes to `starting_player` when given, else to the
     * pre-flop or post-flop first player. A street opened this way with two or more ACTIVE
     * players is never complete at once.
     */
    method StartNewBettingRound(startingPlayer: Option<nat>) returns (err: Option<StateError>)
      requires Valid()
      modifies this
      ensures Valid()
      ensures Value() == old(Value()).(currentBet := 0, lastRaiser := None, streetIndex := 0,
                                       players := ResetBets(old(players)), currentPlayer := currentPlayer)
      ensures startingPlayer.Some? ==> err.None? && currentPlayer == startingPlayer.value
      ensures startingPlayer.None? && phase == PreFlop ==>
        && (err.None? <==> SeatTaken(players, dealerPosition))
        && (err.None? ==> FirstOrFallback(players, dealerPosition, CanAct, currentPlayer))
      ensures startingPlayer.None? && phase != PreFlop && CountIf(players, NotOut) == 0 ==>
        err.None? && currentPlayer == old(currentPlayer)
      ensures startingPlayer.None? && phase != PreFlop && CountIf(players, NotOut) > 0 ==>
        && (err.None? <==> SeatIs(players, dealerPosition, NotOut))
        && (err.None? ==> FirstOrFallback(players, dealerPosition, CanAct, currentPlayer))
      ensures err.Some? ==> currentPlayer == old(currentPlayer)
      ensures |ActivePlayers(players)| >= 2 ==> !IsBettingRoundComplete()
    {
      ResetStreet();
      FreshStreet(old(players));
      if startingPlayer.Some? {
        currentPlayer := startingPlayer.value;
        err := None;
      } else if phase == PreFlop {
        err := SetFirstToAct();
      } else {
        err := SetPostflopFirstToAct();
      }
    }

    /** The reset half of `start_new_betting_round`: the street's bookkeeping and every bet cleared. */
    method ResetStreet()
      requires Valid()
      modifies this
      ensures Valid()
      ensures Value() == old(Value()).(currentBet := 0, lastRaiser := None, streetIndex := 0, players := ResetBets(old(players)))
    {
      currentBet := 0;
      lastRaiser := None;
      streetIndex := 0;
      var i := 0;
      while i < |players|
        invariant 0 <= i <= |players| == |old(players)|
        invariant forall k :: 0 <= k < i ==> players[k] == ResetCurrentBet(old(players)[k])
        invariant forall k :: i <= k < |players| ==> players[k] == old(players)[k]
        invariant Value() == old(Value()).(currentBet := 0, lastRaiser := None, streetIndex := 0, players := players)
      {
        players := players[i := ResetCurrentBet(players[i])];
        i := i + 1;
      }
      assert players == ResetBets(old(players));
      ResetBetsFacts(old(players));
    }

    /** `advance_phase`: one step along PRE_FLOP, FLOP, TURN, RIVER, SHOWDOWN. */
    method AdvancePhase()
      modifies this
      ensures Value() == old(Value()).(phase := NextInOrder(old(phase)))
    {
      phase := NextInOrder(phase);
    }

    /**
     * `collect_bets_to_pot`: every current bet moves into the pot, so pot plus bets on the
     * table is unchanged and no bet is left.
     */
    method CollectBetsToPot()
      requires Valid()
      modifies this
      ensures Valid()
      ensures Value() == old(Value()).(pot := pot, players := ResetBets(old(players)))
      ensures pot == old(pot) + TotalBets(old(players))
      ensures pot + TotalBets(players) == old(pot) + TotalBets(old(players))
      ensures TotalChips(players) == TotalChips(old(players))
    {
      var i := 0;
      while i < |players|
        invariant 0 <= i <= |players| == |old(players)|
        invariant pot == old(pot) + TotalBets(old(players)[..i])
        invariant forall k :: 0 <= k < i ==> players[k] == ResetCurrentBet(old(players)[k])
        invariant forall k :: i <= k < |players| ==> players[k] == old(players)[k]
        invariant Value() == old(Value()).(pot := pot, players := players)
      {
        BetsPrefixStep(old(players), i);
        pot := pot + players[i].currentBet;
        players := players[i := ResetCurrentBet(players[i])];
        i := i + 1;
      }
      assert old(players)[..i] == old(players);
      assert players == ResetBets(old(players));
      ResetBetsFacts(old(players));
      SumOfNonNegative(old(players), BetOf);
    }

    // -------------------------------------------------------------------------------------
    // Blinds

    /**
     * `set_blinds`: with two or more players, every blind flag is cleared, then the small and
     * big blind seats are flagged and post their blinds, and `current_bet` becomes the big
     * blind. A dealer who is not a non-OUT seat makes `index` raise; a blind player who cannot
     * bet makes `bet` raise, and the flags and bets made until then stay.
     */
    method SetBlinds() returns (err: Option<StateError>)
      requires Valid()
      modifies this
      ensures Valid()
      ensures |old(players)| < 2 ==> err.None? && Value() == old(Value())
      ensures Value() == old(Value()).(players := players, currentBet := currentBet)
      ensures |players| == |old(players)|
      ensures forall k :: 0 <= k < |players| ==>
        players[k].seat == old(players)[k].seat && Stack(players[k]) == Stack(old(players)[k])
      ensures |old(players)| >= 2 ==> (err == Some(SeatNotListed) <==> BlindSeats(old(players), dealerPosition).None?)
      ensures |old(players)| >= 2 && BlindSeats(old(players), dealerPosition).Some? ==>
        var (sb, bb) := BlindSeats(old(players), dealerPosition).value;
        && (err.None? <==> forall k :: 0 <= k < |old(players)| ==> Blinded(old(players)[k], sb, bb, smallBlind, bigBlind).Ok?)
        && (err.None? ==> currentBet == bigBlind)
        && (err.None? ==> forall k :: 0 <= k < |players| ==> players[k] == Blinded(old(players)[k], sb, bb, smallBlind, bigBlind).value)
      ensures err.Some? ==> currentBet == old(currentBet)
      ensures err.None? ==> forall k :: 0 <= k < |players| ==>
        players[k].holeCards == old(players)[k].holeCards && players[k].isDealer == old(players)[k].isDealer
        && BlindStatus(old(players)[k], players[k])
    {
      if |players| < 2 {
        return None;
      }
      ghost var before := players;
      ClearBlindFlags();
      BlindSeatsIgnoreFlags(before, players, dealerPosition);
      var blinds := BlindSeats(players, dealerPosition);
      if blinds.None? {
        return Some(SeatNotListed);
      }
      ghost var cleared := players;
      err := PostBlinds(blinds.value.0, blinds.value.1);
      assert forall k :: 0 <= k < |players| ==> players[k].seat == cleared[k].seat && Stack(players[k]) == Stack(cleared[k]);
      ClearedThenPosted(before, cleared, players, blinds.value.0, blinds.value.1, smallBlind, bigBlind, err.None?);
    }

    /** The two postings of `set_blinds`, small blind first, then `current_bet := big_blind`. */
    method PostBlinds(sb: nat, bb: nat) returns (err: Option<StateError>)
      requires Valid()
      modifies this`players, this`currentBet
      ensures Valid()
      ensures Value() == old(Value()).(players := players, currentBet := currentBet)
      ensures |players| == |old(players)|
      ensures forall k :: 0 <= k < |players| ==>
        players[k].seat == old(players)[k].seat && Stack(players[k]) == Stack(old(players)[k])
      ensures err.None? <==> forall k :: 0 <= k < |old(players)| ==> PostBoth(old(players)[k], sb, bb, smallBlind, bigBlind).Ok?
      ensures err.None? ==> currentBet == bigBlind
      ensures err.None? ==> forall k :: 0 <= k < |players| ==> players[k] == PostBoth(old(players)[k], sb, bb, smallBlind, bigBlind).value
      ensures err.Some? ==> err.value.BlindRefused? && currentBet == old(currentBet)
    {
      ghost var start := players;
      PostSeatFacts(players, sb, smallBlind, true);
      err := PostBlind(sb, smallBlind, true);
      if err.Some? {
        SmallBlindRefused(start, sb, bb, smallBlind, bigBlind);
        return;
      }
      ghost var mid := players;
      PostSeatFacts(players, bb, bigBlind, false);
      err := PostBlind(bb, bigBlind, false);
      BothPosted(start, mid, players, sb, bb, smallBlind, bigBlind, err.None?);
      if err.Some? {
        return;
      }
      currentBet := bigBlind;
    }

    /** `player.is_small_blind = False; player.is_big_blind = False` for every player. */
    method ClearBlindFlags()
      requires Valid()
      modifies this
      ensures Valid()
      ensures Value() == old(Value()).(players := players)
      ensures |players| == |old(players)| && forall k :: 0 <= k < |players| ==> players[k] == ClearFlags(old(players)[k])
    {
      var i := 0;
      while i < |players|
        invariant 0 <= i <= |players| == |old(players)|
        invariant forall k :: 0 <= k < i ==> players[k] == ClearFlags(old(players)[k])
        invariant forall k :: i <= k < |players| ==> players[k] == old(players)[k]
        invariant Value() == old(Value()).(players := players)
      {
        players := players[i := ClearFlags(players[i])];
        i := i + 1;
      }
    }

    /** Flag the player at `seat` as the small (or big) blind and have them `bet(amount)`. */
    method PostBlind(seat: nat, amount: int, small: bool) returns (err: Option<StateError>)
      requires Valid()
      modifies this`players
      ensures Valid()
      ensures (err, players) == PostSeat(old(players), seat, amount, small)
    {
      PostSeatDistinct(players, seat, amount, small);
      var posted := PostSeat(players, seat, amount, small);
      err, players := posted.0, posted.1;
    }

    /**
     * `phase_transition`: the state is snapshotted, the transition's block runs and the result
     * is validated; if the block raises or the validation fails, the snapshot is restored.
     * `outcome` is the state the block leaves behind, or None when it raises.
     */
    method PhaseTransition(outcome: Option<TableValue>) returns (err: Option<StateError>)
      requires Valid() && (outcome.Some? ==> ValidValue(outcome.value))
      modifies this
      ensures Valid()
      ensures err.None? <==> outcome.Some? && InvariantCheck(outcome.value).None?
      ensures err.None? ==> Value() == outcome.value
      ensures err.Some? ==> Value() == old(Value())
      ensures outcome.None? ==> err == Some(TransitionFailed)
      ensures outcome.Some? && err.Some? ==> err == InvariantCheck(outcome.value)
    {
      var snapshot := Value();
      if outcome.None? {
        Restore(snapshot);
        return Some(TransitionFailed);
      }
      Restore(outcome.value);
      err := InvariantCheck(Value());
      if err.Some? {
        Restore(snapshot);
      }
    }
  }
}
