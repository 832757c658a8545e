/**
 * The first engine's game controller (`GameController` of the core game logic): the start
 * of a new hand (bets swept into the pot, a leftover pot shared out, players reset, the
 * dealer button moved, blinds posted and hole cards dealt), the checks `process_action`
 * makes before it hands an action on, and the questions the controller answers about the
 * table (total pot, whether the hand is over, whether the game can go on, recent events).
 */
module CoreGameController {
  import opened Common
  import opened Players
  import opened Phases
  import opened Seating
  import Core = CoreGameState
  import PM = PotManagement

  /** Why `start_new_hand` or `process_action` raises. */
  datatype ControllerError =
    | NoActivePhase                          // `current_phase` is None
    | UnknownSeat(seat: nat)                 // no player sits at the acting seat
    | DealerNotSeated                        // `all_player_seats.index(dealer_position)` raised
    | BlindsFailed(cause: Core.StateError)   // `set_blinds` raised
    | DeckExhausted                          // the deck ran out while dealing

  // ---------------------------------------------------------------------------------------
  // The leftover pot

  /** The position of player `k` among the players still in the hand (`enumerate(players_in_hand)`). */
  function Rank(ps: seq<Player>, k: nat): nat
    requires k <= |ps|
  {
    CountIf(ps[..k], InHand)
  }

  /** What player `k` receives of the leftover pot: pot//n, plus one of the pot%n odd chips for the first ones. */
  function LeftoverShare(ps: seq<Player>, pot: nat, k: nat): nat
    requires k < |ps| && CountIf(ps, InHand) > 0
  {
    var n := CountIf(ps, InHand);
    PM.Share(PM.BaseShare(pot, n), PM.OddChips(pot, n), Rank(ps, k))
  }

  /**
   * The players after the leftover pot has been shared among those still in the hand;
   * with nobody in the hand nobody is paid.
   */
  function Settled(ps: seq<Player>, pot: nat): (r: seq<Player>)
    ensures |r| == |ps|
  {
    if CountIf(ps, InHand) == 0 then ps
    else
      seq(|ps|, k requires 0 <= k < |ps| =>
        if InHand(ps[k]) then AddChips(ps[k], LeftoverShare(ps, pot, k)).value else ps[k])
  }

  /** Player `k` with their share of base shares of `base` and `odd` odd chips added, when in the hand. */
  function PaidOut(ps: seq<Player>, base: nat, odd: nat, k: nat): Player
    requires k < |ps|
  {
    ps[k].(chips := ps[k].chips + (if InHand(ps[k]) then PM.Share(base, odd, Rank(ps, k)) else 0))
  }

  /** Player `k` after the share-out: the share added to their chips when they are in the hand, untouched otherwise. */
  lemma SettledAt(ps: seq<Player>, pot: nat, k: nat)
    requires CountIf(ps, InHand) > 0 && k < |ps|
    ensures var n := CountIf(ps, InHand);
      Settled(ps, pot)[k] == PaidOut(ps, pot / n, pot % n, k)
  {
  }

  /** One more share keeps the running total at c base shares plus min(c, odd) odd chips. */
  lemma ShareStep(c: nat, base: nat, odd: nat)
    ensures c * base + Min(c, odd) + PM.Share(base, odd, c) == (c + 1) * base + Min(c + 1, odd)
  {
    assert (c + 1) * base == c * base + base;
  }

  /** The chips paid to the first `k` players: c base shares and one odd chip for each of the first min(c, odd) of them. */
  lemma {:induction false} SettledPrefix(ps: seq<Player>, pot: nat, k: nat)
    requires CountIf(ps, InHand) > 0 && k <= |ps|
    ensures var n := CountIf(ps, InHand);
      TotalChips(Settled(ps, pot)[..k]) == TotalChips(ps[..k]) + Rank(ps, k) * (pot / n) + Min(Rank(ps, k), pot % n)
  {
    if k > 0 {
      SettledPrefix(ps, pot, k - 1);
      var r, n := Settled(ps, pot), CountIf(ps, InHand);
      var c, base, odd := Rank(ps, k - 1), pot / n, pot % n;
      ChipsPrefixStep(r, k);
      ChipsPrefixStep(ps, k);
      RankStep(ps, k - 1);
      SettledAt(ps, pot, k - 1);
      if InHand(ps[k - 1]) {
        ShareStep(c, base, odd);
      }
    }
  }

  /** A prefix one longer holds the chips of one more player. */
  lemma ChipsPrefixStep(s: seq<Player>, k: nat)
    requires 0 < k <= |s|
    ensures TotalChips(s[..k]) == TotalChips(s[..k - 1]) + s[k - 1].chips
  {
    assert s[..k][..k - 1] == s[..k - 1];
  }

  /**
   * Sharing the leftover pot moves only chips: players out of the hand are untouched, and
   * when somebody is in the hand the shares add up to exactly the pot; a single player in
   * the hand takes all of it.
   */
  lemma SettledPaysPot(ps: seq<Player>, pot: nat)
    ensures SameSeats(ps, Settled(ps, pot))
    ensures forall k :: 0 <= k < |ps| ==> Settled(ps, pot)[k] == ps[k].(chips := Settled(ps, pot)[k].chips)
    ensures forall k :: 0 <= k < |ps| && !InHand(ps[k]) ==> Settled(ps, pot)[k] == ps[k]
    ensures CountIf(ps, InHand) > 0 ==> TotalChips(Settled(ps, pot)) == TotalChips(ps) + pot
    ensures CountIf(ps, InHand) == 1 ==>
      forall k :: 0 <= k < |ps| && InHand(ps[k]) ==> Settled(ps, pot)[k].chips == ps[k].chips + pot
  {
    var n := CountIf(ps, InHand);
    if n > 0 {
      SettledShape(ps, pot);
      SettledTotal(ps, pot);
      if n == 1 {
        var r := Settled(ps, pot);
        forall k | 0 <= k < |ps| && InHand(ps[k]) ensures r[k].chips == ps[k].chips + pot {
          SettledAt(ps, pot, k);
        }
      }
    }
  }

  /** Player by player, the share-out changes chips only, and only for players in the hand. */
  lemma SettledShape(ps: seq<Player>, pot: nat)
    requires CountIf(ps, InHand) > 0
    ensures forall k :: 0 <= k < |ps| ==> Settled(ps, pot)[k] == ps[k].(chips := Settled(ps, pot)[k].chips)
    ensures forall k :: 0 <= k < |ps| && !InHand(ps[k]) ==> Settled(ps, pot)[k] == ps[k]
  {
    var r := Settled(ps, pot);
    forall k | 0 <= k < |ps| ensures r[k] == ps[k].(chips := r[k].chips) && (!InHand(ps[k]) ==> r[k] == ps[k]) {
      SettledAt(ps, pot, k);
    }
  }

  /** The shares add up to the whole pot. */
  lemma SettledTotal(ps: seq<Player>, pot: nat)
    requires CountIf(ps, InHand) > 0
    ensures TotalChips(Settled(ps, pot)) == TotalChips(ps) + pot
  {
    var r := Settled(ps, pot);
    SettledPrefix(ps, pot, |ps|);
    assert ps[..|ps|] == ps;
    assert r[..|ps|] == r;
    DivMod(pot, CountIf(ps, InHand));
  }

  lemma DivMod(a: nat, n: nat)
    requires n > 0
    ensures n * (a / n) + Min(n, a % n) == a
  {
  }

  /** The loop of `start_new_hand` that shares the leftover pot among the players in the hand. */
  method SettleLeftover(ps: seq<Player>, pot: nat) returns (r: seq<Player>)
    ensures r == Settled(ps, pot)
  {
    r := ps;
    var n := CountIf(ps, InHand);
    if n == 0 {
      return;
    }
    var perPlayer, remainder := pot / n, pot % n;
    var k, i := 0, 0;
    while k < |ps|
      invariant 0 <= k <= |ps| == |r|
      invariant i == Rank(ps, k)
      invariant forall j :: 0 <= j < k ==> r[j] == PaidOut(ps, perPlayer, remainder, j)
      invariant forall j :: k <= j < |ps| ==> r[j] == ps[j]
    {
      RankStep(ps, k);
      if ps[k].status == Active || ps[k].status == AllIn {
        var amount := perPlayer + (if i < remainder then 1 else 0);
        if amount > 0 {
          var paid := AddChips(ps[k], amount);
          r := r[k := paid.value];
        }
        i := i + 1;
      }
      assert r[k] == PaidOut(ps, perPlayer, remainder, k);
      k := k + 1;
    }
    forall j | 0 <= j < |ps| ensures r[j] == Settled(ps, pot)[j] {
      SettledAt(ps, pot, j);
    }
  }

  /** The rank grows by one past each player in the hand. */
  lemma RankStep(ps: seq<Player>, k: nat)
    requires k < |ps|
    ensures Rank(ps, k + 1) == Rank(ps, k) + (if InHand(ps[k]) then 1 else 0)
  {
    assert ps[..k + 1][..k] == ps[..k];
  }

  // ---------------------------------------------------------------------------------------
  // Clearing the table for a new hand

  /** Every player's `reset_for_new_hand()`. */
  function FreshHand(ps: seq<Player>): (r: seq<Player>)
    ensures |r| == |ps| && forall k :: 0 <= k < |ps| ==> r[k] == ResetForNewHand(ps[k])
  {
    seq(|ps|, k requires 0 <= k < |ps| => ResetForNewHand(ps[k]))
  }

  /**
   * The table once `start_new_hand` has swept the bets into the pot, shared a leftover pot,
   * reset every player and cleared the pot, standing bet, board, street count and last raiser.
   */
  function Cleared(v: Core.TableValue): Core.TableValue {
    v.(players := FreshHand(SweptIn(v.players, v.pot)), pot := 0, currentBet := 0, communityCards := [],
       streetIndex := 0, lastRaiser := None)
  }

  /** The players once their bets are swept into a pot of `pot` and a leftover pot is shared out. */
  function SweptIn(ps: seq<Player>, pot: int): seq<Player> {
    var swept := ResetBets(ps);
    var total := pot + TotalBets(ps);
    if total > 0 then Settled(swept, total) else swept
  }

  /** Two lists with the same chips and bets, player by player, have the same totals. */
  lemma {:induction false} SameTotals(a: seq<Player>, b: seq<Player>)
    requires |a| == |b|
    ensures (forall k :: 0 <= k < |a| ==> a[k].chips == b[k].chips) ==> TotalChips(a) == TotalChips(b)
    ensures (forall k :: 0 <= k < |a| ==> a[k].currentBet == b[k].currentBet) ==> TotalBets(a) == TotalBets(b)
  {
    if a != [] {
      SameTotals(a[..|a| - 1], b[..|b| - 1]);
    }
  }

  /** A list with no bets on it. */
  lemma {:induction false} NoBets(ps: seq<Player>)
    requires forall k :: 0 <= k < |ps| ==> ps[k].currentBet == 0
    ensures TotalBets(ps) == 0
  {
    if ps != [] {
      NoBets(ps[..|ps| - 1]);
    }
  }

  /**
   * Clearing the table loses no chip while someone is still in the hand: the bets and the
   * pot all end up in the players' stacks. With nobody in the hand the pot is dropped.
   * Seats are kept, and a player is ACTIVE afterwards exactly when they hold chips, OUT otherwise.
   */
  lemma ClearedConserves(v: Core.TableValue)
    requires Core.ValidValue(v)
    ensures var c := Cleared(v);
      && Core.ValidValue(c) && SameSeats(v.players, c.players) && TotalBets(c.players) == 0
      && (CountIf(v.players, InHand) > 0 ==> TotalChips(c.players) == TotalChips(v.players) + TotalBets(v.players) + v.pot)
      && (CountIf(v.players, InHand) == 0 ==> TotalChips(c.players) == TotalChips(v.players))
      && forall k :: 0 <= k < |c.players| ==>
           c.players[k].holeCards == [] && (c.players[k].status == Active <==> c.players[k].chips > 0)
           && (c.players[k].status == Out <==> c.players[k].chips == 0)
  {
    var settled := SweptIn(v.players, v.pot);
    SweptAndSettled(v.players, v.pot);
    FreshHandFacts(settled);
    var c := Cleared(v);
    assert c.players == FreshHand(settled);
    assert SameSeats(v.players, c.players) by {
      assert forall k :: 0 <= k < |v.players| ==> c.players[k].seat == settled[k].seat == v.players[k].seat;
    }
    SameSeatsDistinct(v.players, c.players);
    assert c.pot == 0 && c.currentBet == 0 && c.smallBlind == v.smallBlind && c.bigBlind == v.bigBlind;
  }

  /** Sweeping the bets and sharing out the pot they make keeps seats, and pays the whole pot to the players in the hand. */
  lemma SweptAndSettled(ps: seq<Player>, pot: int)
    requires pot >= 0
    ensures var settled := SweptIn(ps, pot);
      && SameSeats(ps, settled)
      && (CountIf(ps, InHand) > 0 ==> TotalChips(settled) == TotalChips(ps) + TotalBets(ps) + pot)
      && (CountIf(ps, InHand) == 0 ==> TotalChips(settled) == TotalChips(ps))
  {
    var swept := ResetBets(ps);
    var total := pot + TotalBets(ps);
    Core.ResetBetsFacts(ps);
    assert forall k :: 0 <= k < |ps| ==> swept[k] == ps[k].(currentBet := 0, acted := false);
    CountIfSame(ps, swept, InHand);
    SumOfNonNegative(ps, BetOf);
    SameTotals(ps, swept);
    assert SameSeats(ps, swept);
    if total > 0 {
      var settled := Settled(swept, total);
      assert SweptIn(ps, pot) == settled;
      SettledPaysPot(swept, total);
      assert SameSeats(ps, settled) by {
        assert forall k :: 0 <= k < |ps| ==> settled[k].seat == swept[k].seat == ps[k].seat;
      }
    } else {
      assert SweptIn(ps, pot) == swept;
    }
  }

  /** Resetting every player keeps seats and chips, clears bets and cards, and leaves ACTIVE exactly the players with chips. */
  lemma FreshHandFacts(ps: seq<Player>)
    ensures var r := FreshHand(ps);
      && SameSeats(ps, r) && TotalChips(r) == TotalChips(ps) && TotalBets(r) == 0
      && forall k :: 0 <= k < |r| ==>
           r[k].holeCards == [] && (r[k].status == Active <==> r[k].chips > 0) && (r[k].status == Out <==> r[k].chips == 0)
  {
    SameTotals(ps, FreshHand(ps));
    NoBets(FreshHand(ps));
  }

  // ---------------------------------------------------------------------------------------
  // The dealer button

  /** Index `d` places after `start`, going round the list. */
  function After(n: nat, start: nat, d: nat): nat
    requires n > 0
  {
    (start + d) % n
  }

  /** The loop of the dealer move from distance `d` on: the first distance up to `n` reaching a player with chips. */
  function ChipsAhead(ps: seq<Player>, start: nat, d: nat): (r: Option<nat>)
    requires |ps| > 0 && d >= 1
    decreases |ps| + 1 - d
    ensures r.Some? ==> d <= r.value <= |ps| && ps[After(|ps|, start, r.value)].chips > 0
    ensures r.Some? ==> forall e :: d <= e < r.value ==> ps[After(|ps|, start, e)].chips == 0
    ensures r.None? ==> forall e :: d <= e <= |ps| ==> ps[After(|ps|, start, e)].chips == 0
  {
    if d > |ps| then None
    else if ps[After(|ps|, start, d)].chips > 0 then Some(d)
    else ChipsAhead(ps, start, d + 1)
  }

  /** Distances 1 to n from any start reach every index. */
  lemma AfterCovers(n: nat, start: nat, k: nat) returns (e: nat)
    requires 0 < n && k < n
    ensures 1 <= e <= n && After(n, start, e) == k
  {
    var q, m := (k - start) / n, (k - start) % n;
    e := if m == 0 then n else m;
    ModUnique(start + e, (if m == 0 then 1 else 0) - q, k, n);
  }

  /**
   * The list index the dealer button moves to from index `di`: the first player after it,
   * going round the list and ending with the dealer itself, who holds chips; None (the
   * button stays) only when nobody holds chips.
   */
  function NextDealerIndex(ps: seq<Player>, di: nat): (r: Option<nat>)
    requires di < |ps|
    ensures r.Some? ==> r.value < |ps| && ps[r.value].chips > 0
    ensures r.None? <==> forall k :: 0 <= k < |ps| ==> ps[k].chips == 0
    ensures r.Some? ==>
      exists d :: 1 <= d <= |ps| && r.value == After(|ps|, di, d)
                  && forall e :: 1 <= e < d ==> ps[After(|ps|, di, e)].chips == 0
  {
    match ChipsAhead(ps, di, 1)
    case None =>
      assert forall k :: 0 <= k < |ps| ==> ps[k].chips == 0 by {
        forall k | 0 <= k < |ps| ensures ps[k].chips == 0 {
          var e := AfterCovers(|ps|, di, k);
        }
      }
      None
    case Some(d) => Some(After(|ps|, di, d))
  }

  /** `player.is_dealer = (player.seat_id == dealer_position)` for every player. */
  function MarkDealer(ps: seq<Player>, dealer: nat): (r: seq<Player>)
    ensures |r| == |ps| && forall k :: 0 <= k < |ps| ==> r[k] == ps[k].(isDealer := ps[k].seat == dealer)
  {
    seq(|ps|, k requires 0 <= k < |ps| => ps[k].(isDealer := ps[k].seat == dealer))
  }

  predicate IsDealer(p: Player) { p.isDealer }

  /** With unique seats, exactly one player carries the dealer flag once the dealer sits at the table. */
  lemma OneDealer(ps: seq<Player>, dealer: nat)
    requires DistinctSeats(ps) && SeatTaken(ps, dealer)
    ensures CountIf(MarkDealer(ps, dealer), IsDealer) == 1
  {
    var r := MarkDealer(ps, dealer);
    assert SameSeats(ps, r);
    SameSeatsDistinct(ps, r);
    Core.OneAtSeat(r, dealer, IsDealer);
    var j :| 0 <= j < |ps| && ps[j].seat == dealer;
    assert r[j].seat == dealer;
  }

  // ---------------------------------------------------------------------------------------
  // Hole cards

  /** The list indices of the players holding chips, in list order (`active_players`). */
  function WithChips(ps: seq<Player>): (r: seq<nat>)
    ensures Increasing(r) && |r| == CountIf(ps, HasChips)
    ensures forall j :: 0 <= j < |r| ==> r[j] < |ps|
    ensures forall k :: 0 <= k < |ps| ==> (k in r <==> ps[k].chips > 0)
  {
    if ps == [] then []
    else
      var init := WithChips(ps[..|ps| - 1]);
      assert forall k :: 0 <= k < |ps| - 1 ==> ps[..|ps| - 1][k] == ps[k];
      init + (if ps[|ps| - 1].chips > 0 then [|ps| - 1] else [])
  }

  predicate HasChips(p: Player) { p.chips > 0 }

  /** The cards the j-th listed player has been given after `rounds` rounds of dealing `m` players from the front of `deck`. */
  function CardsGiven(deck: seq<Card>, m: nat, j: nat, rounds: nat): seq<Card>
    requires j < m && rounds <= 2 && (rounds == 2 ==> 2 * m <= |deck|) && (rounds == 1 ==> m <= |deck|)
  {
    if rounds == 0 then [] else if rounds == 1 then [deck[j]] else [deck[j], deck[m + j]]
  }

  /**
   * The players once two rounds of hole cards have gone to the listed indices: the j-th
   * listed player gets the j-th card of the deck in the first round and the (m+j)-th in the
   * second; nobody else gets a card.
   */
  function HolesDealt(ps: seq<Player>, to: seq<nat>, deck: seq<Card>): (r: seq<Player>)
    requires Increasing(to) && (forall j :: 0 <= j < |to| ==> to[j] < |ps|) && 2 * |to| <= |deck|
    ensures |r| == |ps|
  {
    seq(|ps|, k requires 0 <= k < |ps| =>
      match IndexOf(to, k)
      case None => ps[k]
      case Some(j) => ps[k].(holeCards := ps[k].holeCards + CardsGiven(deck, |to|, j, 2)))
  }

  /**
   * `r` is `ps` after a deal that changed hole cards only: every listed player has the two
   * cards of their turn in each round on top of what they held, everybody else is untouched.
   */
  predicate HandedOut(ps: seq<Player>, to: seq<nat>, deck: seq<Card>, r: seq<Player>)
    requires (forall j :: 0 <= j < |to| ==> to[j] < |ps|) && 2 * |to| <= |deck|
  {
    && |r| == |ps|
    && (forall k :: 0 <= k < |ps| ==> r[k] == ps[k].(holeCards := r[k].holeCards))
    && (forall j :: 0 <= j < |to| ==> r[to[j]].holeCards == ps[to[j]].holeCards + [deck[j], deck[|to| + j]])
    && (forall k :: 0 <= k < |ps| && k !in to ==> r[k] == ps[k])
  }

  /** The dealing rounds change hole cards only: every listed player has two more cards, the rest none. */
  lemma HolesDealtFacts(ps: seq<Player>, to: seq<nat>, deck: seq<Card>)
    requires Increasing(to) && (forall j :: 0 <= j < |to| ==> to[j] < |ps|) && 2 * |to| <= |deck|
    ensures HandedOut(ps, to, deck, HolesDealt(ps, to, deck))
  {
    var r := HolesDealt(ps, to, deck);
    forall j | 0 <= j < |to|
      ensures r[to[j]].holeCards == ps[to[j]].holeCards + [deck[j], deck[|to| + j]]
    {
      var i := IndexOf(to, to[j]).value;
      assert i == j;
    }
  }

  /** The players after `round` dealing rounds: each listed player holds the cards those rounds gave them. */
  predicate DealtRounds(r: seq<Player>, ps: seq<Player>, to: seq<nat>, deck: seq<Card>, round: nat)
    requires round <= 2 && 2 * |to| <= |deck|
  {
    && |r| == |ps| && (forall j :: 0 <= j < |to| ==> to[j] < |ps|)
    && (forall j :: 0 <= j < |to| ==> r[to[j]] == ps[to[j]].(holeCards := ps[to[j]].holeCards + CardsGiven(deck, |to|, j, round)))
    && (forall k :: 0 <= k < |ps| && k !in to ==> r[k] == ps[k])
  }

  /** One dealing round: one card from the front of what is left of the deck to each listed player, in list order. */
  method DealRound(r0: seq<Player>, ps: seq<Player>, to: seq<nat>, deck: seq<Card>, round: nat) returns (r: seq<Player>)
    requires round < 2 && Increasing(to) && 2 * |to| <= |deck|
    requires DealtRounds(r0, ps, to, deck, round)
    ensures DealtRounds(r, ps, to, deck, round + 1)
  {
    var m := |to|;
    r := r0;
    var pos := if round == 0 then 0 else m;
    var j := 0;
    while j < m
      invariant 0 <= j <= m && |r| == |ps|
      invariant pos == (if round == 0 then j else m + j)
      invariant forall i :: 0 <= i < j ==> r[to[i]] == ps[to[i]].(holeCards := ps[to[i]].holeCards + CardsGiven(deck, m, i, round + 1))
      invariant forall i :: j <= i < m ==> r[to[i]] == ps[to[i]].(holeCards := ps[to[i]].holeCards + CardsGiven(deck, m, i, round))
      invariant forall k :: 0 <= k < |ps| && k !in to ==> r[k] == ps[k]
    {
      var k := to[j];
      assert CardsGiven(deck, m, j, round + 1) == CardsGiven(deck, m, j, round) + [deck[pos]];
      assert forall i :: 0 <= i < m && i != j ==> to[i] != k;
      r := r[k := r[k].(holeCards := r[k].holeCards + [deck[pos]])];
      pos := pos + 1;
      j := j + 1;
    }
  }

  /** The two dealing rounds of `start_new_hand`, over the listed players, from the front of the deck. */
  method DealHoles(ps: seq<Player>, to: seq<nat>, deck: seq<Card>) returns (r: seq<Player>, rest: seq<Card>)
    requires Increasing(to) && (forall j :: 0 <= j < |to| ==> to[j] < |ps|) && 2 * |to| <= |deck|
    ensures r == HolesDealt(ps, to, deck) && rest == deck[2 * |to|..]
  {
    r := ps;
    var round := 0;
    while round < 2
      invariant 0 <= round <= 2 && DealtRounds(r, ps, to, deck, round)
    {
      r := DealRound(r, ps, to, deck, round);
      round := round + 1;
    }
    rest := deck[2 * |to|..];
    HolesDealtFacts(ps, to, deck);
    assert forall k :: 0 <= k < |ps| ==> r[k] == HolesDealt(ps, to, deck)[k] by {
      forall k | 0 <= k < |ps| ensures r[k] == HolesDealt(ps, to, deck)[k] {
        if k in to {
          var j :| 0 <= j < |to| && to[j] == k;
        }
      }
    }
  }

  /**
   * Who the dealing rounds reach as written: a listed player is dealt a card only while
   * `player.chips > 0` at dealing time, after the blinds have been posted.
   */
  function ReachedAsWritten(ps: seq<Player>, to: seq<nat>): (r: seq<nat>)
    requires forall j :: 0 <= j < |to| ==> to[j] < |ps|
    ensures |r| <= |to| && forall j :: 0 <= j < |r| ==> r[j] in to && ps[r[j]].chips > 0
  {
    if to == [] then []
    else
      var init := ReachedAsWritten(ps, to[..|to| - 1]);
      var last := to[|to| - 1];
      init + (if ps[last].chips > 0 then [last] else [])
  }

  /**
   * As written, a big blind whose blind takes every chip is ALL_IN, still in the hand, and
   * is dealt no hole cards: seat 1 holds 5 chips and posts a big blind of 10.
   */
  lemma AllInBlindDealtOut()
    ensures var bigBlind := Bet(NewPlayer(1, 5), 10);
      && bigBlind == Ok((Player(1, 0, 5, AllIn, [], false, false, false, false), 5))
      && InHand(bigBlind.value.0)
      && ReachedAsWritten([NewPlayer(0, 100), bigBlind.value.0], [0, 1]) == [0]
  {
    var ps := [NewPlayer(0, 100), Player(1, 0, 5, AllIn, [], false, false, false, false)];
    assert ReachedAsWritten(ps, []) == [];
    assert [0, 1][..1] == [0] && [0][..0] == [];
    assert ReachedAsWritten(ps, [0]) == [0];
  }

  /**
   * Corrected: the dealing rounds go to every player who held chips when the hand began,
   * blinds or not, so each of them ends with exactly the two cards the rounds gave them.
   */
  lemma StartingPlayersDealt(ps: seq<Player>, posted: seq<Player>, deck: seq<Card>, r: seq<Player>)
    requires |posted| == |ps| && 2 * CountIf(ps, HasChips) <= |deck|
    requires forall k :: 0 <= k < |ps| ==> ps[k].holeCards == [] && posted[k].holeCards == []
    requires HandedOut(posted, WithChips(ps), deck, r)
    ensures forall k :: 0 <= k < |ps| ==> (|r[k].holeCards| == 2 <==> ps[k].chips > 0) && (ps[k].chips == 0 ==> r[k] == posted[k])
  {
    var to := WithChips(ps);
    forall k | 0 <= k < |ps|
      ensures (|r[k].holeCards| == 2 <==> ps[k].chips > 0) && (ps[k].chips == 0 ==> r[k] == posted[k])
    {
      if ps[k].chips > 0 {
        var j :| 0 <= j < |to| && to[j] == k;
        assert r[k].holeCards == [deck[j], deck[|to| + j]];
      } else {
        assert k !in to;
      }
    }
  }

  // ---------------------------------------------------------------------------------------
  // Questions about the table

  /** Not FOLDED and not OUT: the players `is_hand_over` counts. */
  predicate StillPlaying(p: Player) {
    p.status != Folded && p.status != Out
  }

  /** The players still playing are exactly those in the hand (ACTIVE or ALL_IN). */
  lemma {:induction false} StillPlayingInHand(ps: seq<Player>)
    ensures CountIf(ps, StillPlaying) == CountIf(ps, InHand)
  {
    if ps != [] {
      StillPlayingInHand(ps[..|ps| - 1]);
    }
  }

  /** `get_recent_events(count)`: nothing for count ≤ 0, otherwise the newest `count` events (all of them if fewer). */
  function RecentEvents<E>(events: seq<E>, count: int): (r: seq<E>)
    ensures count <= 0 ==> r == []
    ensures count > 0 ==> |r| == Min(count, |events|)
    ensures r == events[|events| - |r|..]
  {
    if count <= 0 then []
    else if count >= |events| then events
    else events[|events| - count..]
  }

  /**
   * `process_action`'s checks before validation: with no active phase it raises; a missing
   * seat means the current player; a seat with no player raises. The result is the acting
   * player's list index.
   */
  function ActingIndex(hasPhase: bool, ps: seq<Player>, currentPlayer: nat, seat: Option<nat>): (r: Result<nat, ControllerError>)
    ensures !hasPhase ==> r == Err(NoActivePhase)
    ensures var acting := if seat.Some? then seat.value else currentPlayer;
      && (hasPhase ==> (r.Ok? <==> SeatTaken(ps, acting)))
      && (hasPhase && r.Err? ==> r == Err(UnknownSeat(acting)))
      && (r.Ok? ==> r.value < |ps| && ps[r.value].seat == acting)
  {
    if !hasPhase then Err(NoActivePhase)
    else
      var acting := if seat.Some? then seat.value else currentPlayer;
      match IndexOfSeat(ps, acting)
      case None => Err(UnknownSeat(acting))
      case Some(i) => Ok(i)
  }

  // ---------------------------------------------------------------------------------------
  // The controller

  class GameController {
    const state: Core.GameState
    /** `current_phase is not None`; the phase objects themselves are not part of this model. */
    var hasPhase: bool
    /** The cards left in `state.deck`. */
    var deck: seq<Card>

    ghost predicate Valid()
      reads this, state
    {
      state.Valid()
    }

    /** A controller over `state`, with the pre-flop phase object when the state is at PRE_FLOP. */
    constructor (state: Core.GameState)
      requires state.Valid()
      ensures Valid() && this.state == state && deck == []
      ensures hasPhase <==> state.phase == PreFlop
    {
      this.state := state;
      this.hasPhase := state.phase == PreFlop;
      this.deck := [];
    }

    /** `get_total_pot`: the centre pot and every bet still in front of a player. */
    function TotalPot(): (r: int)
      reads this, state
      ensures r == state.Value().pot + TotalBets(state.Value().players)
    {
      state.pot + TotalBets(state.players)
    }

    /** `can_game_continue`: more than one player is still in the hand. */
    predicate CanGameContinue()
      reads this, state
    {
      CountIf(state.players, InHand) > 1
    }

    /**
     * `is_hand_over`: at most one player is neither FOLDED nor OUT, or the table is at
     * SHOWDOWN and the betting round is complete (`roundComplete` is the phase object's
     * answer; with no phase object the round counts as complete).
     */
    predicate IsHandOver(roundComplete: bool)
      reads this, state
    {
      CountIf(state.players, StillPlaying) <= 1 || (state.phase == Showdown && (!hasPhase || roundComplete))
    }

    /** The hand is over whenever the game cannot go on, and outside SHOWDOWN only then. */
    lemma HandOverAgrees(roundComplete: bool)
      ensures !CanGameContinue() ==> IsHandOver(roundComplete)
      ensures state.phase != Showdown ==> (IsHandOver(roundComplete) <==> !CanGameContinue())
    {
      StillPlayingInHand(state.players);
    }

    /**
     * The first half of `start_new_hand`: bets into the pot, the leftover pot to the players
     * still in the hand, every player reset, and pot, standing bet, board, street count and
     * last raiser cleared.
     */
    method ClearTable()
      requires Valid()
      modifies state
      ensures Valid()
      ensures state.Value() == Cleared(old(state.Value()))
    {
      ghost var v := state.Value();
      ClearedConserves(v);
      state.CollectBetsToPot();
      ghost var swept := state.players;
      ghost var pot := state.pot;
      assert swept == ResetBets(v.players) && pot == v.pot + TotalBets(v.players);
      ghost var w := state.Value();
      assert w == v.(pot := pot, players := swept);
      if state.pot > 0 {
        var settled := SettleLeftover(state.players, state.pot);
        state.players := settled;
      }
      assert state.players == SweptIn(v.players, v.pot);
      ghost var target := Cleared(v);
      assert target == w.(players := FreshHand(state.players), pot := 0, currentBet := 0, communityCards := [],
                          streetIndex := 0, lastRaiser := None);
      state.players, state.pot, state.currentBet := FreshHand(state.players), 0, 0;
      state.communityCards, state.streetIndex, state.lastRaiser := [], 0, None;
      assert state.players == target.players;
      assert state.phase == target.phase && state.dealerPosition == target.dealerPosition;
      assert state.currentPlayer == target.currentPlayer && state.smallBlind == target.smallBlind;
      assert state.bigBlind == target.bigBlind && state.pot == target.pot;
      assert state.Value() == target;
    }

    /**
     * The dealer move of `start_new_hand`: the dealer's seat must be at the table; the button
     * goes to the first player after it in list order who holds chips, and stays when nobody
     * does.
     */
    method MoveDealer() returns (err: Option<ControllerError>)
      requires Valid()
      modifies state
      ensures Valid()
      ensures state.Value() == old(state.Value()).(dealerPosition := state.dealerPosition)
      ensures var di := IndexOfSeat(state.players, old(state.dealerPosition));
        && (err.Some? <==> di.None?) && (err.Some? ==> err.value == DealerNotSeated)
        && (di.Some? ==>
              state.dealerPosition ==
                match NextDealerIndex(state.players, di.value)
                case None => old(state.dealerPosition)
                case Some(j) => state.players[j].seat)
    {
      var ps := state.players;
      var di := IndexOfSeat(ps, state.dealerPosition);
      if di.None? {
        return Some(DealerNotSeated);
      }
      var n := |ps|;
      var i := 1;
      while i <= n
        invariant 1 <= i <= n + 1
        invariant ChipsAhead(ps, di.value, i) == ChipsAhead(ps, di.value, 1)
      {
        var next := (di.value + i) % n;
        if ps[next].chips > 0 {
          state.dealerPosition := ps[next].seat;
          return None;
        }
        i := i + 1;
      }
      return None;
    }

    /**
     * The second half of `start_new_hand` on a cleared table where the listed players hold
     * chips: the dealer button moves, the dealer flags are set, the blinds are posted, every
     * listed player is dealt two hole cards from the front of `shuffled`, and the hand opens
     * at PRE_FLOP.
     */
    method OpenHand(active: seq<nat>, shuffled: seq<Card>) returns (err: Option<ControllerError>)
      requires Valid() && active == WithChips(state.players) && |active| >= 2
      requires forall k :: 0 <= k < |state.players| ==>
        state.players[k].holeCards == [] && (state.players[k].status == Active <==> state.players[k].chips > 0)
        && (state.players[k].status == Out <==> state.players[k].chips == 0)
      modifies this, state
      ensures Valid()
      ensures state.pot == old(state.pot) && state.communityCards == old(state.communityCards)
      ensures var di := IndexOfSeat(old(state.players), old(state.dealerPosition));
        && (err == Some(DealerNotSeated) <==> di.None?)
        && (err.Some? ==> err.value.DealerNotSeated? || err.value.BlindsFailed? || err.value.DeckExhausted?)
        && (err.None? ==>
              state.dealerPosition ==
                match NextDealerIndex(old(state.players), di.value)
                case None => old(state.dealerPosition)
                case Some(j) => old(state.players)[j].seat)
      ensures err.None? ==>
        && state.phase == PreFlop && hasPhase && state.currentBet == state.bigBlind
        && SameSeats(old(state.players), state.players)
        && TotalChips(state.players) + TotalBets(state.players) == TotalChips(old(state.players)) + TotalBets(old(state.players))
        && 2 * |active| <= |shuffled| && deck == shuffled[2 * |active|..]
        && CountIf(state.players, IsDealer) == 1
        && forall k :: 0 <= k < |state.players| ==>
             (InHand(state.players[k]) <==> old(state.players)[k].chips > 0)
             && (InHand(state.players[k]) ==> |state.players[k].holeCards| == 2)
             && (!InHand(state.players[k]) ==> state.players[k].holeCards == [])
    {
      ghost var cps := state.players;
      err := MoveDealer();
      if err.Some? {
        return;
      }
      err := MarkAndPost();
      if err.Some? {
        return;
      }
      ghost var posted := state.players;
      if 2 * |active| > |shuffled| {
        return Some(DeckExhausted);
      }
      DealStage(active, shuffled);
      DealtInHand(cps, posted, active, shuffled, state.players);
    }

    /**
     * The dealer flags and the blinds of `start_new_hand`: only the player at the button is
     * marked as the dealer, and the blinds move chips from stacks into bets.
     */
    method MarkAndPost() returns (err: Option<ControllerError>)
      requires Valid() && |state.players| >= 2 && SeatTaken(state.players, state.dealerPosition)
      modifies state
      ensures Valid()
      ensures state.Value() == old(state.Value()).(players := state.players, currentBet := state.currentBet)
      ensures err.Some? ==> err.value.BlindsFailed?
      ensures err.None? ==>
        && state.currentBet == state.bigBlind && SameSeats(old(state.players), state.players)
        && TotalChips(state.players) + TotalBets(state.players) == TotalChips(old(state.players)) + TotalBets(old(state.players))
        && CountIf(state.players, IsDealer) == 1
        && forall k :: 0 <= k < |state.players| ==>
             state.players[k].holeCards == old(state.players)[k].holeCards && Core.BlindStatus(old(state.players)[k], state.players[k])
    {
      ghost var cps := state.players;
      ghost var dealer := state.dealerPosition;
      state.players := MarkDealer(state.players, state.dealerPosition);
      ghost var marked := state.players;
      assert SameSeats(cps, marked);
      SameSeatsDistinct(cps, marked);
      var blindErr := state.SetBlinds();
      if blindErr.Some? {
        return Some(BlindsFailed(blindErr.value));
      }
      MarkedAndPosted(cps, dealer, state.players);
      return None;
    }

    /** The dealing rounds of `start_new_hand` applied to the table, which then enters PRE_FLOP. */
    method DealStage(active: seq<nat>, shuffled: seq<Card>)
      requires Valid() && Increasing(active) && (forall j :: 0 <= j < |active| ==> active[j] < |state.players|)
      requires 2 * |active| <= |shuffled|
      modifies this, state
      ensures Valid() && hasPhase && deck == shuffled[2 * |active|..]
      ensures state.Value() == old(state.Value()).(players := state.players, phase := PreFlop)
      ensures HandedOut(old(state.players), active, shuffled, state.players)
    {
      var dealt, rest := DealHoles(state.players, active, shuffled);
      HolesDealtFacts(state.players, active, shuffled);
      SameSeatsDistinct(state.players, dealt);
      state.players := dealt;
      deck := rest;
      hasPhase := true;
      state.phase := PreFlop;
    }

    /**
     * `start_new_hand` with `shuffled` standing for the freshly shuffled deck: the table is
     * cleared; then, when at least two players hold chips, the hand is opened.
     */
    method StartNewHand(shuffled: seq<Card>) returns (err: Option<ControllerError>)
      requires Valid()
      modifies this, state
      ensures Valid()
      ensures var c := Cleared(old(state.Value()));
        && (CountIf(c.players, HasChips) < 2 ==>
              err.None? && state.Value() == c && hasPhase == old(hasPhase) && deck == old(deck))
        && (CountIf(c.players, HasChips) >= 2 ==>
              && (err == Some(DealerNotSeated) <==> IndexOfSeat(c.players, c.dealerPosition).None?)
              && (err.None? ==>
                    && state.phase == PreFlop && hasPhase && state.pot == 0 && state.currentBet == state.bigBlind
                    && state.communityCards == [] && SameSeats(c.players, state.players)
                    && 2 * CountIf(c.players, HasChips) <= |shuffled|
                    && deck == shuffled[2 * CountIf(c.players, HasChips)..]
                    && CountIf(state.players, IsDealer) == 1
                    && forall k :: 0 <= k < |state.players| ==>
                         (InHand(state.players[k]) <==> c.players[k].chips > 0)
                         && (InHand(state.players[k]) ==> |state.players[k].holeCards| == 2)
                         && (!InHand(state.players[k]) ==> state.players[k].holeCards == [])))
      ensures err.Some? ==> err.value.DealerNotSeated? || err.value.BlindsFailed? || err.value.DeckExhausted?
      ensures err.None? && CountIf(old(state.players), InHand) > 0 ==>
        TotalChips(state.players) + TotalBets(state.players) + state.pot
          == old(TotalChips(state.players) + TotalBets(state.players) + state.pot)
    {
      ghost var v0 := state.Value();
      ClearedConserves(v0);
      ClearTable();
      var active := WithChips(state.players);
      if |active| < 2 {
        return None;
      }
      err := OpenHand(active, shuffled);
    }
  }

  /**
   * Marking the dealer and posting the blinds keeps every seat and the chips in play, leaves
   * one dealer, and changes no hole cards.
   */
  lemma MarkedAndPosted(cps: seq<Player>, dealer: nat, posted: seq<Player>)
    requires DistinctSeats(cps) && SeatTaken(cps, dealer)
    requires var marked := MarkDealer(cps, dealer);
      && |posted| == |marked|
      && forall k :: 0 <= k < |posted| ==>
           && posted[k].seat == marked[k].seat && Stack(posted[k]) == Stack(marked[k])
           && posted[k].holeCards == marked[k].holeCards && posted[k].isDealer == marked[k].isDealer
           && Core.BlindStatus(marked[k], posted[k])
    ensures SameSeats(cps, posted)
    ensures TotalChips(posted) + TotalBets(posted) == TotalChips(cps) + TotalBets(cps)
    ensures CountIf(posted, IsDealer) == 1
    ensures forall k :: 0 <= k < |posted| ==> posted[k].holeCards == cps[k].holeCards && Core.BlindStatus(cps[k], posted[k])
  {
    var marked := MarkDealer(cps, dealer);
    OneDealer(cps, dealer);
    CountIfSame(marked, posted, IsDealer);
    StackTotals(cps, marked);
    StackTotals(marked, posted);
  }

  /** A deal keeps every seat, every stack and every dealer flag. */
  lemma HandedOutKeeps(ps: seq<Player>, to: seq<nat>, deck: seq<Card>, r: seq<Player>)
    requires (forall j :: 0 <= j < |to| ==> to[j] < |ps|) && 2 * |to| <= |deck|
    requires HandedOut(ps, to, deck, r)
    ensures SameSeats(ps, r)
    ensures TotalChips(r) + TotalBets(r) == TotalChips(ps) + TotalBets(ps)
    ensures CountIf(r, IsDealer) == CountIf(ps, IsDealer)
  {
    assert forall k :: 0 <= k < |ps| ==> r[k] == ps[k].(holeCards := r[k].holeCards);
    CountIfSame(ps, r, IsDealer);
    StackTotals(ps, r);
  }

  /** After blinds and the deal, the players in the hand are exactly those who held chips, each with two hole cards. */
  lemma DealtInHand(cps: seq<Player>, posted: seq<Player>, active: seq<nat>, shuffled: seq<Card>, dealt: seq<Player>)
    requires forall k :: 0 <= k < |cps| ==>
      cps[k].holeCards == [] && (cps[k].status == Active <==> cps[k].chips > 0) && (cps[k].status == Out <==> cps[k].chips == 0)
    requires SameSeats(cps, posted) && CountIf(posted, IsDealer) == 1
    requires TotalChips(posted) + TotalBets(posted) == TotalChips(cps) + TotalBets(cps)
    requires forall k :: 0 <= k < |posted| ==> posted[k].holeCards == cps[k].holeCards && Core.BlindStatus(cps[k], posted[k])
    requires active == WithChips(cps) && 2 * |active| <= |shuffled|
    requires HandedOut(posted, active, shuffled, dealt)
    ensures SameSeats(cps, dealt) && CountIf(dealt, IsDealer) == 1
    ensures TotalChips(dealt) + TotalBets(dealt) == TotalChips(cps) + TotalBets(cps)
    ensures forall k :: 0 <= k < |dealt| ==>
        (InHand(dealt[k]) <==> cps[k].chips > 0)
        && (InHand(dealt[k]) ==> |dealt[k].holeCards| == 2)
        && (!InHand(dealt[k]) ==> dealt[k].holeCards == [])
  {
    HandedOutKeeps(posted, active, shuffled, dealt);
    StartingPlayersDealt(cps, posted, shuffled, dealt);
    forall k | 0 <= k < |dealt|
      ensures (InHand(dealt[k]) <==> cps[k].chips > 0)
    {
      assert dealt[k].status == posted[k].status;
    }
  }

  /** Sweeping the bets into the centre pot leaves `get_total_pot` as it was, with no bet left in front of a player. */
  lemma SweepKeepsTotalPot(v: Core.TableValue)
    ensures var c := v.(pot := v.pot + TotalBets(v.players), players := ResetBets(v.players));
      c.pot + TotalBets(c.players) == v.pot + TotalBets(v.players) && TotalBets(c.players) == 0
  {
    Core.ResetBetsFacts(v.players);
  }

  /** Lists whose players hold the same stacks, seat for seat, hold the same chips and bets in total. */
  lemma {:induction false} StackTotals(a: seq<Player>, b: seq<Player>)
    requires |a| == |b| && forall k :: 0 <= k < |a| ==> Stack(a[k]) == Stack(b[k])
    ensures TotalChips(a) + TotalBets(a) == TotalChips(b) + TotalBets(b)
  {
    if a != [] {
      StackTotals(a[..|a| - 1], b[..|b| - 1]);
    }
  }
}
