/**
 * The v2 pot manager: it collects the round's bets into a main pot and side pots,
 * gives an uncalled excess back, and pays pots out to their winners.
 * Players are values; the methods return the updated player list in place of
 * updating player objects.
 */
module PotManagement {
  import opened Common
  import opened Players
  import opened SidePots

  // ---------------------------------------------------------------------------------------
  // Splitting one pot among its winners

  /** `pot // n`: every winner's base share. */
  function BaseShare(pot: nat, n: nat): nat
    requires n > 0
  {
    pot / n
  }

  /** `pot % n`: the chips left over after the base shares. */
  function OddChips(pot: nat, n: nat): nat
    requires n > 0
  {
    pot % n
  }

  /** The share of the i-th winner (by ascending seat): the base share, plus one of the `odd` leftover chips. */
  function Share(base: nat, odd: int, i: nat): nat {
    base + (if i < odd then 1 else 0)
  }

  /** The shares of `n` winners in seat order. */
  function Shares(base: nat, odd: int, n: nat): (r: seq<int>)
    ensures |r| == n
  {
    seq(n, i requires 0 <= i < n => Share(base, odd, i))
  }

  lemma {:induction false} SharesPrefix(base: nat, odd: nat, n: nat, k: nat)
    requires k <= n
    ensures Sum(Shares(base, odd, n)[..k]) == k * base + Min(k, odd)
  {
    if k > 0 {
      SharesPrefix(base, odd, n, k - 1);
      assert Shares(base, odd, n)[..k][..k - 1] == Shares(base, odd, n)[..k - 1];
      assert (k - 1) * base + base == k * base;
    }
  }

  /** With `pot // n` each and `pot % n` odd chips, the shares add up to exactly the pot. */
  lemma SharesSplitPot(pot: nat, n: nat)
    requires n > 0
    ensures Sum(Shares(BaseShare(pot, n), OddChips(pot, n), n)) == pot
  {
    SharesPrefix(BaseShare(pot, n), OddChips(pot, n), n, n);
    assert Shares(BaseShare(pot, n), OddChips(pot, n), n)[..n] == Shares(BaseShare(pot, n), OddChips(pot, n), n);
  }

  /** No two shares differ by more than one chip, and a lower seat never gets less. */
  lemma SharesFair(pot: nat, n: nat, i: nat, j: nat)
    requires i <= j < n
    ensures Share(BaseShare(pot, n), OddChips(pot, n), j) <= Share(BaseShare(pot, n), OddChips(pot, n), i) <= Share(BaseShare(pot, n), OddChips(pot, n), j) + 1
  {
  }

  // ---------------------------------------------------------------------------------------
  // Players as the pot manager sees them

  /** Same players, seat for seat, with only their chips possibly changed. */
  predicate SameButChips(a: seq<Player>, b: seq<Player>) {
    |a| == |b| && forall k :: 0 <= k < |a| ==> a[k] == b[k].(chips := a[k].chips)
  }

  /** The players with every current bet cleared. */
  function ClearedBets(ps: seq<Player>): (r: seq<Player>)
    ensures |r| == |ps|
  {
    seq(|ps|, k requires 0 <= k < |ps| => ps[k].(currentBet := 0))
  }

  /** `player.chips += amount` for the first player at `seat`; nobody else changes. */
  function Credit(ps: seq<Player>, seat: nat, amount: nat): (r: seq<Player>)
    ensures |r| == |ps|
  {
    match IndexOfSeat(ps, seat)
    case None => ps
    case Some(at) => ps[at := ps[at].(chips := ps[at].chips + amount)]
  }

  /** A credit changes nobody's seat, bet, status or cards. */
  lemma CreditSame(ps: seq<Player>, seat: nat, amount: nat)
    ensures SameButChips(Credit(ps, seat, amount), ps)
  {
  }

  /** With distinct seats, a credit reaches exactly the seat it names. */
  lemma CreditChips(ps: seq<Player>, seat: nat, amount: nat)
    requires DistinctSeats(ps)
    ensures var r := Credit(ps, seat, amount);
      |r| == |ps| && forall k :: 0 <= k < |ps| ==> r[k].chips == ps[k].chips + (if ps[k].seat == seat then amount else 0)
  {
    match IndexOfSeat(ps, seat)
    case None =>
    case Some(at) =>
      var r := ps[at := ps[at].(chips := ps[at].chips + amount)];
      forall k | 0 <= k < |ps| ensures r[k].chips == ps[k].chips + (if ps[k].seat == seat then amount else 0) {
        if k != at {
          assert ps[k].seat != ps[at].seat;
        }
      }
  }

  /** A credit to a seat at the table adds exactly its amount to the table's chips. */
  lemma CreditTotal(ps: seq<Player>, seat: nat, amount: nat)
    requires SeatTaken(ps, seat)
    ensures TotalChips(Credit(ps, seat, amount)) == TotalChips(ps) + amount
  {
    var j :| 0 <= j < |ps| && ps[j].seat == seat;
    var found := IndexOfSeat(ps, seat);
    assert found.Some?;
    var at := found.value;
    var credited := ps[at].(chips := ps[at].chips + amount);
    assert Credit(ps, seat, amount) == ps[at := credited];
    SumOfUpdate(ps, at, credited, ChipsOf);
    assert ChipsOf(credited) == ChipsOf(ps[at]) + amount;
  }

  /** A credit reaches exactly the seat it names and adds exactly its amount to the table. */
  lemma CreditFacts(ps: seq<Player>, seat: nat, amount: nat)
    requires DistinctSeats(ps) && SeatTaken(ps, seat)
    ensures var r := Credit(ps, seat, amount);
      && SameButChips(r, ps)
      && (forall k :: 0 <= k < |ps| ==> r[k].chips == ps[k].chips + (if ps[k].seat == seat then amount else 0))
      && TotalChips(r) == TotalChips(ps) + amount
  {
    CreditSame(ps, seat, amount);
    CreditChips(ps, seat, amount);
    CreditTotal(ps, seat, amount);
  }

  lemma SameButChipsSeats(a: seq<Player>, b: seq<Player>)
    requires SameButChips(a, b)
    ensures forall k :: 0 <= k < |a| ==> a[k].seat == b[k].seat
    ensures DistinctSeats(b) ==> DistinctSeats(a)
  {
    assert forall k :: 0 <= k < |a| ==> a[k].seat == b[k].(chips := a[k].chips).seat;
  }

  lemma SeatStillTaken(a: seq<Player>, b: seq<Player>, s: nat)
    requires SameButChips(a, b) && SeatTaken(b, s)
    ensures SeatTaken(a, s)
  {
    var j :| 0 <= j < |b| && b[j].seat == s;
    assert a[j] == b[j].(chips := a[j].chips);
  }

  // ---------------------------------------------------------------------------------------
  // Collecting a round's bets

  /** `round_contributions`: the seats with a positive bet, in table order. */
  function RoundContributions(ps: seq<Player>): seq<Contribution> {
    if ps == [] then []
    else
      var last := ps[|ps| - 1];
      RoundContributions(ps[..|ps| - 1])
        + (if last.currentBet > 0 then [Contribution(last.seat, last.currentBet)] else [])
  }

  /** Every round entry is a positive bet of a seat at the table, and together they are all the bets. */
  lemma {:induction false} RoundFacts(ps: seq<Player>)
    ensures var r := RoundContributions(ps);
      && (forall k :: 0 <= k < |r| ==> r[k].amount > 0 && SeatTaken(ps, r[k].player))
      && TotalOf(r) == TotalBets(ps)
      && TotalChips(ClearedBets(ps)) == TotalChips(ps)
  {
    if ps != [] {
      var init, last := ps[..|ps| - 1], ps[|ps| - 1];
      RoundFacts(init);
      var r0 := RoundContributions(init);
      var tail := if last.currentBet > 0 then [Contribution(last.seat, last.currentBet)] else [];
      SumOfAppend(r0, tail, AmountOf);
      assert tail == [] || tail[..0] == [];
      assert ClearedBets(ps)[..|ps| - 1] == ClearedBets(init);
      forall k | 0 <= k < |r0| ensures SeatTaken(ps, r0[k].player) {
        var j :| 0 <= j < |init| && init[j].seat == r0[k].player;
        assert ps[j] == init[j];
      }
    }
  }

  /** `_contributions` after adding a round: each seat's running total grows by its bet. */
  function AddContributions(m: map<nat, nat>, round: seq<Contribution>): map<nat, nat> {
    if round == [] then m
    else
      var m' := AddContributions(m, round[..|round| - 1]);
      var c := round[|round| - 1];
      m'[c.player := (if c.player in m' then m'[c.player] else 0) + c.amount]
  }

  /** The running total after one more bet: that seat's entry grows by the bet, nobody else's changes. */
  lemma AddContributionsStep(m: map<nat, nat>, round: seq<Contribution>, c: Contribution)
    ensures var before := AddContributions(m, round);
      AddContributions(m, round + [c])
        == before[c.player := (if c.player in before then before[c.player] else 0) + c.amount]
  {
    assert (round + [c])[..|round|] == round;
  }

  /** `len(set(amounts)) == 1` */
  predicate AllEqual(round: seq<Contribution>) {
    round != [] && forall k :: 0 <= k < |round| ==> round[k].amount == round[0].amount
  }

  /** Two or more equal positive bets leave no excess: the all-equal shortcut loses nothing to the tiers. */
  lemma AllEqualNoExcess(round: seq<Contribution>)
    requires AllEqual(round) && |round| >= 2 && forall k :: 0 <= k < |round| ==> round[k].amount > 0
    ensures Gap(SortedContributions(round), 0) == 0
  {
    FilterAll(round, IsPositive);
    var w := SortedContributions(round);
    SortByFacts(round, AmountOf);
    SortByMembers(round, AmountOf);
    assert w[|w| - 1] in round && w[|w| - 2] in round;
  }

  /** `min(...)` over a non-empty list of seats. */
  function MinOf(s: seq<nat>): (r: nat)
    requires s != []
    ensures r in s && forall k :: 0 <= k < |s| ==> r <= s[k]
  {
    if |s| == 1 then s[0]
    else
      var m := MinOf(s[1..]);
      assert forall k :: 1 <= k < |s| ==> s[k] == s[1..][k - 1];
      if s[0] <= m then s[0] else m
  }

  // ---------------------------------------------------------------------------------------
  // Paying pots out

  /**
   * One `winners_by_pot` entry; index 0 is the main pot, any other index `i` is side pot
   * `i - 1` under Python's list indexing, so a negative `i - 1` counts from the end.
   */
  datatype PotWinners = PotWinners(potIndex: int, winners: seq<nat>)

  /**
   * The errors `award_pots` raises: the empty-winners and bad-index `ValueError`s, and the
   * `IndexError` of a negative index that reaches past the front of the side pots.
   */
  datatype AwardError = EmptyWinners(potIndex: int) | InvalidPotIndex(potIndex: int) | PotIndexError(potIndex: int)

  /** An entry `award_pots` accepts: some winner, and a pot that Python's indexing reaches. */
  predicate EntryOk(e: PotWinners, sideCount: nat) {
    e.winners != [] && (e.potIndex == 0 || -(sideCount as int) <= e.potIndex - 1 < sideCount)
  }

  /** The error `award_pots` raises for an entry it rejects. */
  function EntryError(e: PotWinners, sideCount: nat): (r: AwardError)
    requires !EntryOk(e, sideCount)
    ensures r.EmptyWinners? <==> e.winners == []
    ensures r.InvalidPotIndex? <==> e.winners != [] && e.potIndex - 1 >= sideCount
    ensures r.PotIndexError? <==> e.winners != [] && e.potIndex - 1 < -(sideCount as int)
    ensures r.potIndex == e.potIndex
  {
    if e.winners == [] then EmptyWinners(e.potIndex)
    else if e.potIndex - 1 >= sideCount then InvalidPotIndex(e.potIndex)
    else PotIndexError(e.potIndex)
  }

  /** How many leading entries are accepted before the first rejected one. */
  function AcceptedPrefix(entries: seq<PotWinners>, sideCount: nat): (r: nat)
    ensures r <= |entries|
    ensures forall k :: 0 <= k < r ==> EntryOk(entries[k], sideCount)
    ensures r < |entries| ==> !EntryOk(entries[r], sideCount)
  {
    if entries == [] then 0
    else if EntryOk(entries[0], sideCount) then 1 + AcceptedPrefix(entries[1..], sideCount)
    else 0
  }

  /** The amount of the pot an entry names, `_side_pots[index - 1]` counting from the end when negative. */
  function PotAt(main: int, side: seq<SidePot>, index: int): int {
    if index == 0 then main
    else if 0 <= index - 1 < |side| then side[index - 1].amount
    else if -|side| <= index - 1 < 0 then side[|side| + index - 1].amount
    else 0
  }

  /** The chips paid out for `entries`, the named pot once per entry. */
  function PaidOut(main: int, side: seq<SidePot>, entries: seq<PotWinners>): int {
    if entries == [] then 0
    else PaidOut(main, side, entries[..|entries| - 1]) + PotAt(main, side, entries[|entries| - 1].potIndex)
  }

  /** `awards.get(seat, 0)` */
  function AwardOf(awards: map<nat, int>, seat: nat): int {
    if seat in awards then awards[seat] else 0
  }

  function SeatKey(s: nat): int { s }

  lemma SharesStep(base: nat, odd: int, n: nat, i: nat)
    requires i < n
    ensures Sum(Shares(base, odd, n)[..i + 1]) == Sum(Shares(base, odd, n)[..i]) + Share(base, odd, i)
  {
    assert Shares(base, odd, n)[..i + 1] == Shares(base, odd, n)[..i] + [Share(base, odd, i)];
    SumAppend(Shares(base, odd, n)[..i], [Share(base, odd, i)]);
    assert [Share(base, odd, i)][..0] == [];
  }

  /** The players and awards once the first `i` winners of one pot have been paid their shares. */
  function PayWinners(ps: seq<Player>, awards: map<nat, int>, winners: seq<nat>, base: nat, odd: int, i: nat)
    : (r: (seq<Player>, map<nat, int>))
    requires i <= |winners|
    ensures |r.0| == |ps|
  {
    if i == 0 then (ps, awards)
    else
      var prev := PayWinners(ps, awards, winners, base, odd, i - 1);
      var w, share := winners[i - 1], Share(base, odd, i - 1);
      (Credit(prev.0, w, share), prev.1[w := AwardOf(prev.1, w) + share])
  }

  /** Paying winners changes nothing but chips. */
  lemma {:induction false} PayWinnersSame(ps: seq<Player>, awards: map<nat, int>, winners: seq<nat>, base: nat, odd: int, i: nat)
    requires i <= |winners|
    ensures SameButChips(PayWinners(ps, awards, winners, base, odd, i).0, ps)
  {
    if i > 0 {
      PayWinnersSame(ps, awards, winners, base, odd, i - 1);
      var (q, a) := PayWinners(ps, awards, winners, base, odd, i - 1);
      CreditSame(q, winners[i - 1], Share(base, odd, i - 1));
      SameButChipsTrans(Credit(q, winners[i - 1], Share(base, odd, i - 1)), q, ps);
    }
  }

  /** Every seat of `ps` is kept in `q`, with its chips grown by what `a` records for it beyond `awards`. */
  predicate ChipsTrackAwards(ps: seq<Player>, awards: map<nat, int>, q: seq<Player>, a: map<nat, int>) {
    && |q| == |ps|
    && (forall k :: 0 <= k < |ps| ==> q[k].seat == ps[k].seat)
    && forall k :: 0 <= k < |ps| ==> q[k].chips - AwardOf(a, ps[k].seat) == ps[k].chips - AwardOf(awards, ps[k].seat)
  }

  /** Every seat's chips grow by exactly what `awards` records for it. */
  lemma {:induction false} PayWinnersChips(ps: seq<Player>, awards: map<nat, int>, winners: seq<nat>, base: nat, odd: int, i: nat)
    requires DistinctSeats(ps) && i <= |winners|
    ensures ChipsTrackAwards(ps, awards, PayWinners(ps, awards, winners, base, odd, i).0, PayWinners(ps, awards, winners, base, odd, i).1)
  {
    if i > 0 {
      PayWinnersChips(ps, awards, winners, base, odd, i - 1);
      var prev := PayWinners(ps, awards, winners, base, odd, i - 1);
      CreditStep(ps, awards, prev.0, prev.1, winners[i - 1], Share(base, odd, i - 1));
      PayWinnersUnfold(ps, awards, winners, base, odd, i);
    }
  }

  /** One more winner paid: their credit and their award entry. */
  lemma PayWinnersUnfold(ps: seq<Player>, awards: map<nat, int>, winners: seq<nat>, base: nat, odd: int, i: nat)
    requires 0 < i <= |winners|
    ensures var prev := PayWinners(ps, awards, winners, base, odd, i - 1);
      var w, share := winners[i - 1], Share(base, odd, i - 1);
      PayWinners(ps, awards, winners, base, odd, i) == (Credit(prev.0, w, share), prev.1[w := AwardOf(prev.1, w) + share])
  {
  }

  /** One winner's credit keeps every seat's chips minus its award where they were. */
  lemma CreditStep(ps: seq<Player>, awards: map<nat, int>, q: seq<Player>, a: map<nat, int>, w: nat, share: nat)
    requires DistinctSeats(ps) && ChipsTrackAwards(ps, awards, q, a)
    ensures ChipsTrackAwards(ps, awards, Credit(q, w, share), a[w := AwardOf(a, w) + share])
  {
    assert DistinctSeats(q) by {
      forall i, j | 0 <= i < j < |q| ensures q[i].seat != q[j].seat {
        assert q[i].seat == ps[i].seat && q[j].seat == ps[j].seat;
      }
    }
    CreditSame(q, w, share);
    SameButChipsSeats(Credit(q, w, share), q);
    CreditChips(q, w, share);
  }

  /** The table's chips grow by the shares paid so far. */
  lemma {:induction false} PayWinnersTotal(ps: seq<Player>, awards: map<nat, int>, winners: seq<nat>, base: nat, odd: int, i: nat)
    requires i <= |winners|
    requires forall k :: 0 <= k < |winners| ==> SeatTaken(ps, winners[k])
    ensures TotalChips(PayWinners(ps, awards, winners, base, odd, i).0) == TotalChips(ps) + Sum(Shares(base, odd, |winners|)[..i])
  {
    if i > 0 {
      PayWinnersTotal(ps, awards, winners, base, odd, i - 1);
      PayWinnersSame(ps, awards, winners, base, odd, i - 1);
      var (q, a) := PayWinners(ps, awards, winners, base, odd, i - 1);
      SeatStillTaken(q, ps, winners[i - 1]);
      CreditTotal(q, winners[i - 1], Share(base, odd, i - 1));
      SharesStep(base, odd, |winners|, i - 1);
    }
  }

  /** All winners of one pot together receive exactly the pot. */
  lemma PayWinnersPaysPot(ps: seq<Player>, awards: map<nat, int>, winners: seq<nat>, pot: nat)
    requires winners != []
    requires forall k :: 0 <= k < |winners| ==> SeatTaken(ps, winners[k])
    ensures TotalChips(PayWinners(ps, awards, winners, BaseShare(pot, |winners|), OddChips(pot, |winners|), |winners|).0) == TotalChips(ps) + pot
  {
    PayWinnersTotal(ps, awards, winners, BaseShare(pot, |winners|), OddChips(pot, |winners|), |winners|);
    SharesSplitPot(pot, |winners|);
    assert Shares(BaseShare(pot, |winners|), OddChips(pot, |winners|), |winners|)[..|winners|] == Shares(BaseShare(pot, |winners|), OddChips(pot, |winners|), |winners|);
  }

  /**
   * The inner loop of `award_pots` for one pot: the winners, sorted by seat, each get
   * `pot // n`, the first `pot % n` of them one chip more, credited to their chips and to `awards`.
   */
  method PayPot(ps: seq<Player>, awards: map<nat, int>, sortedWinners: seq<nat>, potAmount: nat)
    returns (paid: seq<Player>, awarded: map<nat, int>)
    requires sortedWinners != []
    ensures (paid, awarded) == PayWinners(ps, awards, sortedWinners, BaseShare(potAmount, |sortedWinners|),
                                          OddChips(potAmount, |sortedWinners|), |sortedWinners|)
  {
    var winnerCount := |sortedWinners|;
    var baseAward := BaseShare(potAmount, winnerCount);
    var remainder := OddChips(potAmount, winnerCount);
    paid, awarded := ps, awards;
    var i := 0;
    while i < winnerCount
      invariant i <= winnerCount
      invariant (paid, awarded) == PayWinners(ps, awards, sortedWinners, baseAward, remainder, i)
    {
      var winner := sortedWinners[i];
      var award := baseAward;
      if i < remainder {
        award := award + 1;
      }
      assert award == Share(baseAward, remainder, i);
      awarded := awarded[winner := AwardOf(awarded, winner) + award];
      paid := Credit(paid, winner, award);
      assert (paid, awarded) == PayWinners(ps, awards, sortedWinners, baseAward, remainder, i + 1) by {
        PayWinnersUnfold(ps, awards, sortedWinners, baseAward, remainder, i + 1);
      }
      i := i + 1;
    }
  }

  /** Pots never hold a negative amount. */
  predicate PotsNonNegative(main: int, side: seq<SidePot>) {
    main >= 0 && forall i :: 0 <= i < |side| ==> side[i].amount >= 0
  }

  /** Whether `award_pots` skips an entry: only the main pot, and only when it is empty. */
  predicate Skipped(e: PotWinners, main: int) {
    e.potIndex == 0 && main == 0
  }

  /** The players and awards after `award_pots` has handled `entries` in order. */
  function PayEntries(ps: seq<Player>, main: int, side: seq<SidePot>, entries: seq<PotWinners>)
    : (r: (seq<Player>, map<nat, int>))
    requires PotsNonNegative(main, side)
    ensures |r.0| == |ps|
  {
    if entries == [] then (ps, map[])
    else
      var (q, a) := PayEntries(ps, main, side, entries[..|entries| - 1]);
      var e := entries[|entries| - 1];
      if !EntryOk(e, |side|) || Skipped(e, main) then (q, a)
      else
        var sorted := SortBy(e.winners, SeatKey);
        var pot: nat := PotAt(main, side, e.potIndex);
        PayWinners(q, a, sorted, BaseShare(pot, |sorted|), OddChips(pot, |sorted|), |sorted|)
  }

  /** Winners named by the entries all sit at the table. */
  predicate WinnersSeated(ps: seq<Player>, entries: seq<PotWinners>) {
    forall k, s :: 0 <= k < |entries| && s in entries[k].winners ==> SeatTaken(ps, s)
  }

  /** Paying entries changes nothing but chips. */
  lemma {:induction false} PayEntriesSame(ps: seq<Player>, main: int, side: seq<SidePot>, entries: seq<PotWinners>)
    requires PotsNonNegative(main, side)
    ensures SameButChips(PayEntries(ps, main, side, entries).0, ps)
  {
    if entries != [] {
      var init, e := entries[..|entries| - 1], entries[|entries| - 1];
      PayEntriesSame(ps, main, side, init);
      var (q, a) := PayEntries(ps, main, side, init);
      if EntryOk(e, |side|) && !Skipped(e, main) {
        var sorted := SortBy(e.winners, SeatKey);
        var pot: nat := PotAt(main, side, e.potIndex);
        PayWinnersSame(q, a, sorted, BaseShare(pot, |sorted|), OddChips(pot, |sorted|), |sorted|);
        SameButChipsTrans(PayEntries(ps, main, side, entries).0, q, ps);
      }
    }
  }

  /** Every seat's chips grow by exactly its recorded award. */
  lemma {:induction false} PayEntriesChips(ps: seq<Player>, main: int, side: seq<SidePot>, entries: seq<PotWinners>)
    requires PotsNonNegative(main, side) && DistinctSeats(ps)
    ensures var (q, a) := PayEntries(ps, main, side, entries);
      forall k :: 0 <= k < |ps| ==> q[k].chips == ps[k].chips + AwardOf(a, ps[k].seat)
  {
    if entries != [] {
      var init, e := entries[..|entries| - 1], entries[|entries| - 1];
      PayEntriesChips(ps, main, side, init);
      PayEntriesSame(ps, main, side, init);
      var (q, a) := PayEntries(ps, main, side, init);
      if EntryOk(e, |side|) && !Skipped(e, main) {
        var sorted := SortBy(e.winners, SeatKey);
        var pot: nat := PotAt(main, side, e.potIndex);
        SameButChipsSeats(q, ps);
        PayWinnersChips(q, a, sorted, BaseShare(pot, |sorted|), OddChips(pot, |sorted|), |sorted|);
      }
    }
  }

  /** The table's chips grow by what the paid pots held. */
  lemma {:induction false} PayEntriesTotal(ps: seq<Player>, main: int, side: seq<SidePot>, entries: seq<PotWinners>)
    requires PotsNonNegative(main, side) && WinnersSeated(ps, entries)
    requires forall k :: 0 <= k < |entries| ==> EntryOk(entries[k], |side|)
    ensures TotalChips(PayEntries(ps, main, side, entries).0) == TotalChips(ps) + PaidOut(main, side, entries)
  {
    if entries != [] {
      var init, e := entries[..|entries| - 1], entries[|entries| - 1];
      assert WinnersSeated(ps, init) by {
        forall k, s | 0 <= k < |init| && s in init[k].winners ensures SeatTaken(ps, s) {
          assert init[k] == entries[k];
        }
      }
      PayEntriesTotal(ps, main, side, init);
      PayEntriesSame(ps, main, side, init);
      var (q, a) := PayEntries(ps, main, side, init);
      if !Skipped(e, main) {
        var sorted := SortBy(e.winners, SeatKey);
        SortByFacts(e.winners, SeatKey);
        SortByMembers(e.winners, SeatKey);
        forall k | 0 <= k < |sorted| ensures SeatTaken(q, sorted[k]) {
          assert sorted[k] in e.winners;
          SeatStillTaken(q, ps, sorted[k]);
        }
        PayWinnersPaysPot(q, a, sorted, PotAt(main, side, e.potIndex));
      }
    }
  }

  /** Paying the accepted entries changes only chips: each seat gains its award, the table what the pots held. */
  lemma PayEntriesFacts(ps: seq<Player>, main: int, side: seq<SidePot>, entries: seq<PotWinners>)
    requires PotsNonNegative(main, side) && DistinctSeats(ps) && WinnersSeated(ps, entries)
    requires forall k :: 0 <= k < |entries| ==> EntryOk(entries[k], |side|)
    ensures var (q, a) := PayEntries(ps, main, side, entries);
      && SameButChips(q, ps)
      && (forall k :: 0 <= k < |ps| ==> q[k].chips == ps[k].chips + AwardOf(a, ps[k].seat))
      && TotalChips(q) == TotalChips(ps) + PaidOut(main, side, entries)
  {
    PayEntriesSame(ps, main, side, entries);
    PayEntriesChips(ps, main, side, entries);
    PayEntriesTotal(ps, main, side, entries);
  }

  lemma SameButChipsTrans(a: seq<Player>, b: seq<Player>, c: seq<Player>)
    requires SameButChips(a, b) && SameButChips(b, c)
    ensures SameButChips(a, c)
  {
  }

  /** `sum(...)` of the pots after moving the first tier into the main pot and appending the rest. */
  lemma AppendTiers(side: seq<SidePot>, tiers: seq<SidePot>)
    requires tiers != []
    ensures PotTotal(side + tiers[1..]) + tiers[0].amount == PotTotal(side) + PotTotal(tiers)
  {
    SumOfCons(tiers[0], tiers[1..], PotAmountOf);
    assert [tiers[0]] + tiers[1..] == tiers;
    SumOfAppend(side, tiers[1..], PotAmountOf);
  }

  /** `min(max_contributors)`: the lowest seat among those who contributed the most. */
  function ReturnPlayer(round: seq<Contribution>): nat
    requires round != []
  {
    var top := MaxAmount(round);
    CountIfZero(round, AtLevel(top));
    MinOf(SidePots.Players(Filter(round, AtLevel(MaxAmount(round)))))
  }

  /** The seat an excess is returned to contributed the maximum. */
  lemma ReturnPlayerOwnsMax(round: seq<Contribution>)
    requires round != []
    ensures exists i :: 0 <= i < |round| && round[i].player == ReturnPlayer(round) && round[i].amount == MaxAmount(round)
  {
    var top := Filter(round, AtLevel(MaxAmount(round)));
    FilterMembers(round, AtLevel(MaxAmount(round)));
    CountIfZero(round, AtLevel(MaxAmount(round)));
    var r :| 0 <= r < |top| && top[r].player == ReturnPlayer(round);
    assert top[r] in round;
  }

  /** What collecting one round adds: chips for the main pot, new side pots, and the excess handed back. */
  datatype RoundSplit = RoundSplit(toMain: int, newSidePots: seq<SidePot>, refund: Option<Contribution>)

  function RefundAmount(refund: Option<Contribution>): int {
    if refund.Some? then refund.value.amount else 0
  }

  /**
   * The second half of `collect_from_players` on the round's positive bets: equal bets all go
   * to the main pot; unequal bets are split into tiers, the first joining the main pot and the
   * rest becoming side pots, and an uncalled excess is returned to `ReturnPlayer`.
   */
  function SplitRound(round: seq<Contribution>): RoundSplit {
    if round == [] then RoundSplit(0, [], None)
    else if AllEqual(round) then RoundSplit(TotalOf(round), [], None)
    else
      var pots := SidePotsOf(round);
      var excess := Gap(SortedContributions(round), 0);
      RoundSplit(if pots == [] then 0 else pots[0].amount,
                 if pots == [] then [] else pots[1..],
                 if excess > 0 then Some(Contribution(ReturnPlayer(round), excess)) else None)
  }

  /** A round's chips all land somewhere: in the main pot, in new side pots or back with a player; none is negative. */
  lemma SplitRoundConserves(round: seq<Contribution>)
    ensures var s := SplitRound(round);
      && s.toMain >= 0
      && (forall i :: 0 <= i < |s.newSidePots| ==> s.newSidePots[i].amount >= 0)
      && s.toMain + PotTotal(s.newSidePots) + RefundAmount(s.refund) == TotalOf(round)
  {
    if round == [] {
    } else if AllEqual(round) {
      SumOfNonNegative(round, AmountOf);
    } else {
      var pots := SidePotsOf(round);
      PotsPlusExcess(round);
      TiersNonNegative(round);
      if pots != [] {
        AppendTiers([], pots);
        assert [] + pots[1..] == pots[1..];
      }
    }
  }

  /**
   * An excess is handed back exactly when the bets differ and the top contribution stands
   * alone above the next one; it goes to a seat that contributed the most, and it is that gap.
   */
  lemma SplitRoundRefund(round: seq<Contribution>)
    requires forall k :: 0 <= k < |round| ==> round[k].amount > 0
    ensures var r := SplitRound(round).refund;
      && (r.Some? <==> !AllEqual(round) && Gap(SortedContributions(round), 0) > 0)
      && (r.Some? ==>
            && r.value.amount == Gap(SortedContributions(round), 0)
            && exists i :: 0 <= i < |round| && round[i].player == r.value.player && round[i].amount == MaxAmount(round))
  {
    if round != [] {
      if AllEqual(round) && |round| >= 2 {
        AllEqualNoExcess(round);
      }
      if !AllEqual(round) {
        PotsPlusExcess(round);
        ReturnPlayerOwnsMax(round);
      }
    }
  }

  /** The tier computation of `collect_from_players` for one round, through `get_pot_distribution_summary`. */
  method DivideRound(round: seq<Contribution>) returns (toMain: int, newSidePots: seq<SidePot>, refund: Option<Contribution>)
    ensures RoundSplit(toMain, newSidePots, refund) == SplitRound(round)
  {
    toMain, newSidePots, refund := 0, [], None;
    if round == [] {
      return;
    }
    if AllEqual(round) {
      toMain := TotalOf(round);
      return;
    }
    var distribution := GetPotDistributionSummary(round);
    var allPots := distribution.sidePots;
    if allPots != [] {
      toMain := allPots[0].amount;
      newSidePots := allPots[1..];
    }
    if distribution.returnedAmount > 0 {
      var returnPlayer := ReturnPlayer(round);
      refund := Some(Contribution(returnPlayer, distribution.returnedAmount));
    }
  }

  class PotManager {
    var mainPot: int
    var sidePots: seq<SidePot>
    var contributions: map<nat, nat>
    var totalCollected: int
    /** Chips collected and then handed back as an uncalled excess. */
    ghost var returned: int
    /** Chips collected and then paid to winners. */
    ghost var paidOut: int

    /** Pots never hold negative amounts, and every collected chip is in a pot, returned or paid out. */
    ghost predicate Valid()
      reads this
    {
      && PotsNonNegative(mainPot, sidePots)
      && returned >= 0 && paidOut >= 0
      && TotalPot() + returned + paidOut == totalCollected
    }

    constructor()
      ensures Valid()
      ensures mainPot == 0 && sidePots == [] && contributions == map[] && totalCollected == 0
    {
      mainPot, sidePots, contributions, totalCollected := 0, [], map[], 0;
      returned, paidOut := 0, 0;
    }

    /** `get_total_pot`: the main pot plus every side pot. */
    function TotalPot(): int
      reads this
    {
      mainPot + PotTotal(sidePots)
    }

    /** `validate_pot_integrity`: the pots hold the expected total, by default everything collected. */
    function ValidatePotIntegrity(expectedTotal: Option<int>): bool
      reads this
    {
      TotalPot() == (if expectedTotal.Some? then expectedTotal.value else totalCollected)
    }

    /** Without an expected total, integrity holds exactly while nothing has been returned or paid out. */
    lemma IntegrityMeansNothingLeft()
      requires Valid()
      ensures ValidatePotIntegrity(None) <==> returned + paidOut == 0
    {
    }

    /** `reset`: empty pots and no contributions. */
    method Reset()
      modifies this
      ensures Valid()
      ensures mainPot == 0 && sidePots == [] && contributions == map[] && totalCollected == 0
    {
      mainPot := 0;
      sidePots := [];
      contributions := map[];
      totalCollected := 0;
      returned, paidOut := 0, 0;
    }

    /** The second half of `collect_from_players`: the round's pots join the manager's, as `SplitRound` divides them. */
    method AddRound(round: seq<Contribution>) returns (refund: Option<Contribution>)
      requires && PotsNonNegative(mainPot, sidePots) && returned >= 0 && paidOut >= 0
               && TotalPot() + returned + paidOut + TotalOf(round) == totalCollected
      modifies this
      ensures Valid()
      ensures contributions == old(contributions) && totalCollected == old(totalCollected)
      ensures var s := SplitRound(round);
        && mainPot == old(mainPot) + s.toMain
        && sidePots == old(sidePots) + s.newSidePots
        && refund == s.refund
    {
      var toMain, newSidePots;
      toMain, newSidePots, refund := DivideRound(round);
      SplitRoundConserves(round);
      SumOfAppend(sidePots, newSidePots, PotAmountOf);
      mainPot := mainPot + toMain;
      sidePots := sidePots + newSidePots;
      returned := returned + RefundAmount(refund);
    }

    /**
     * `collect_from_players`: moves every positive bet into `_contributions`, `_total_collected`
     * and the pots, clears every bet, and credits a returned excess to its owner's chips.
     * Returns the updated players and `{seat: returned}` as an optional entry.
     */
    method CollectFromPlayers(players: seq<Player>) returns (updated: seq<Player>, refund: Option<Contribution>)
      requires Valid() && DistinctSeats(players)
      modifies this
      ensures Valid()
      ensures var round := RoundContributions(players);
        var s := SplitRound(round);
        && totalCollected == old(totalCollected) + TotalOf(round)
        && contributions == AddContributions(old(contributions), round)
        && mainPot == old(mainPot) + s.toMain
        && sidePots == old(sidePots) + s.newSidePots
        && refund == s.refund
      ensures updated == AfterCollect(players)
    {
      var round;
      updated, round, contributions, totalCollected := TakeBets(players, contributions, totalCollected);
      refund := AddRound(round);
      if refund.Some? {
        updated := Credit(updated, refund.value.player, refund.value.amount);
      }
    }

    /**
     * `award_pots`: each entry's pot is split among its winners in seat order, `pot // n` each
     * and one odd chip to each of the lowest `pot % n` seats; then every pot is emptied.
     * A negative index names a side pot counted from the end, as Python's list indexing does.
     * An entry without winners or naming a missing side pot raises, after the earlier
     * entries have already been paid and with the pots left as they were.
     */
    method AwardPots(players: seq<Player>, winnersByPot: seq<PotWinners>)
      returns (updated: seq<Player>, result: Result<map<nat, int>, AwardError>)
      requires Valid()
      modifies this
      ensures Valid()
      ensures var n := AcceptedPrefix(winnersByPot, |old(sidePots)|);
        && updated == PayEntries(players, old(mainPot), old(sidePots), winnersByPot[..n]).0
        && (result.Ok? <==> n == |winnersByPot|)
        && (result.Ok? ==> result.value == PayEntries(players, old(mainPot), old(sidePots), winnersByPot).1)
        && (result.Err? ==> result.error == EntryError(winnersByPot[n], |old(sidePots)|))
      ensures result.Ok? ==> mainPot == 0 && sidePots == []
      ensures result.Err? ==> mainPot == old(mainPot) && sidePots == old(sidePots)
      ensures totalCollected == old(totalCollected) && contributions == old(contributions)
    {
      var awards, stoppedAt;
      updated, awards, stoppedAt := PayAllEntries(players, mainPot, sidePots, winnersByPot);
      if stoppedAt < |winnersByPot| {
        return updated, Err(EntryError(winnersByPot[stoppedAt], |sidePots|));
      }
      assert winnersByPot[..|winnersByPot|] == winnersByPot;
      SumOfNonNegative(sidePots, PotAmountOf);
      paidOut := paidOut + TotalPot();
      mainPot := 0;
      sidePots := [];
      result := Ok(awards);
    }
  }

  /**
   * The loop of `award_pots` over its entries, up to the first one it rejects (no winners,
   * or a side pot past the end): returns the players and awards so far and where it stopped.
   * An empty main pot is skipped.
   */
  method PayAllEntries(players: seq<Player>, main: int, side: seq<SidePot>, winnersByPot: seq<PotWinners>)
    returns (updated: seq<Player>, awards: map<nat, int>, stoppedAt: nat)
    requires PotsNonNegative(main, side)
    ensures stoppedAt == AcceptedPrefix(winnersByPot, |side|)
    ensures (updated, awards) == PayEntries(players, main, side, winnersByPot[..stoppedAt])
  {
    awards := map[];
    updated := players;
    var j := 0;
    while j < |winnersByPot| && EntryOk(winnersByPot[j], |side|)
      invariant j <= AcceptedPrefix(winnersByPot, |side|)
      invariant (updated, awards) == PayEntries(players, main, side, winnersByPot[..j])
    {
      var entry := winnersByPot[j];
      assert winnersByPot[..j + 1] == winnersByPot[..j] + [entry];
      PayEntriesSnoc(players, main, side, winnersByPot[..j], entry);
      if !Skipped(entry, main) {
        var potAmount := PotAt(main, side, entry.potIndex);
        var sortedWinners := SortBy(entry.winners, SeatKey);
        updated, awards := PayPot(updated, awards, sortedWinners, potAmount);
      }
      j := j + 1;
    }
    stoppedAt := j;
  }

  /** One more accepted entry: skipped, or its pot paid on top of what came before. */
  lemma PayEntriesSnoc(ps: seq<Player>, main: int, side: seq<SidePot>, entries: seq<PotWinners>, e: PotWinners)
    requires PotsNonNegative(main, side) && EntryOk(e, |side|)
    ensures var (q, a) := PayEntries(ps, main, side, entries);
      var sorted := SortBy(e.winners, SeatKey);
      var pot: nat := PotAt(main, side, e.potIndex);
      PayEntries(ps, main, side, entries + [e])
        == if Skipped(e, main) then (q, a)
           else PayWinners(q, a, sorted, BaseShare(pot, |sorted|), OddChips(pot, |sorted|), |sorted|)
  {
    assert (entries + [e])[..|entries|] == entries;
  }

  /** Awarding pays every winner its share: only chips change, each seat by its award, the table by what the pots held. */
  lemma AwardPotsPays(players: seq<Player>, main: int, side: seq<SidePot>, winnersByPot: seq<PotWinners>)
    requires PotsNonNegative(main, side) && DistinctSeats(players) && WinnersSeated(players, winnersByPot)
    ensures var n := AcceptedPrefix(winnersByPot, |side|);
      var (q, a) := PayEntries(players, main, side, winnersByPot[..n]);
      && SameButChips(q, players)
      && (forall k :: 0 <= k < |players| ==> q[k].chips == players[k].chips + AwardOf(a, players[k].seat))
      && TotalChips(q) == TotalChips(players) + PaidOut(main, side, winnersByPot[..n])
  {
    var n := AcceptedPrefix(winnersByPot, |side|);
    assert WinnersSeated(players, winnersByPot[..n]) by {
      forall k, s | 0 <= k < n && s in winnersByPot[..n][k].winners ensures SeatTaken(players, s) {
        assert winnersByPot[..n][k] == winnersByPot[k];
      }
    }
    PayEntriesFacts(players, main, side, winnersByPot[..n]);
  }

  /** Every tier is non-negative. */
  lemma TiersNonNegative(c: seq<Contribution>)
    ensures forall i :: 0 <= i < |SidePotsOf(c)| ==> SidePotsOf(c)[i].amount >= 0
  {
    EligibleListsNested(c);
  }

  /**
   * The loop of `collect_from_players`: every positive bet is recorded for the round, added to
   * the seat's running contribution and to the collected total, and cleared.
   */
  method TakeBets(players: seq<Player>, contributions: map<nat, nat>, collected: int)
    returns (updated: seq<Player>, round: seq<Contribution>, contributions': map<nat, nat>, collected': int)
    ensures updated == ClearedBets(players)
    ensures round == RoundContributions(players)
    ensures contributions' == AddContributions(contributions, round)
    ensures collected' == collected + TotalOf(round)
  {
    round := [];
    updated, contributions', collected' := players, contributions, collected;
    var i := 0;
    while i < |players|
      invariant i <= |players|
      invariant |updated| == |players|
      invariant forall k :: 0 <= k < i ==> updated[k] == players[k].(currentBet := 0)
      invariant forall k :: i <= k < |players| ==> updated[k] == players[k]
      invariant round == RoundContributions(players[..i])
      invariant collected' == collected + TotalOf(round)
      invariant contributions' == AddContributions(contributions, round)
    {
      var player := updated[i];
      assert player == players[i];
      RoundStep(players, i);
      if player.currentBet > 0 {
        var contribution := player.currentBet;
        var entry := Contribution(player.seat, contribution);
        assert TotalOf(round + [entry]) == TotalOf(round) + contribution by {
          SumOfAppend(round, [entry], AmountOf);
          assert [entry][..0] == [];
        }
        AddContributionsStep(contributions, round, entry);
        round := round + [entry];
        var before := if player.seat in contributions' then contributions'[player.seat] else 0;
        contributions' := contributions'[player.seat := before + contribution];
        updated := updated[i := player.(currentBet := 0)];
        collected' := collected' + contribution;
      }
      i := i + 1;
    }
    assert players[..|players|] == players;
    AllCleared(players, updated);
  }

  /** A table whose every player is the original with its bet cleared is `ClearedBets`. */
  lemma AllCleared(players: seq<Player>, updated: seq<Player>)
    requires |updated| == |players|
    requires forall k :: 0 <= k < |players| ==> updated[k] == players[k].(currentBet := 0)
    ensures updated == ClearedBets(players)
  {
  }

  /** The i-th player's positive bet extends the round by one entry. */
  lemma RoundStep(players: seq<Player>, i: nat)
    requires i < |players|
    ensures RoundContributions(players[..i + 1]) == RoundContributions(players[..i])
      + (if players[i].currentBet > 0 then [Contribution(players[i].seat, players[i].currentBet)] else [])
  {
    assert players[..i + 1][..i] == players[..i];
  }

  /** Clearing bets leaves no bet on the table. */
  lemma {:induction false} ZeroBets(ps: seq<Player>)
    ensures TotalBets(ClearedBets(ps)) == 0
  {
    if ps != [] {
      ZeroBets(ps[..|ps| - 1]);
      assert ClearedBets(ps)[..|ps| - 1] == ClearedBets(ps[..|ps| - 1]);
    }
  }

  /** The table after `collect_from_players`: bets cleared, and a returned excess back on its owner's stack. */
  function AfterCollect(players: seq<Player>): (r: seq<Player>)
    ensures |r| == |players|
  {
    var refund := SplitRound(RoundContributions(players)).refund;
    if refund.Some? then Credit(ClearedBets(players), refund.value.player, refund.value.amount)
    else ClearedBets(players)
  }

  /**
   * Collecting only moves chips between bets, pots and the refunded stack: chips plus bets plus
   * what the round added to the pots is unchanged, every bet ends at zero, seats stay where
   * they were, and only the refunded seat's chips grow, by the refund.
   */
  lemma CollectConserves(players: seq<Player>)
    requires DistinctSeats(players)
    ensures var s := SplitRound(RoundContributions(players));
      var updated := AfterCollect(players);
      && (forall k :: 0 <= k < |players| ==> updated[k].currentBet == 0 && updated[k].seat == players[k].seat)
      && (forall k :: 0 <= k < |players| ==>
            updated[k].chips == players[k].chips + (if s.refund.Some? && players[k].seat == s.refund.value.player then s.refund.value.amount else 0))
      && TotalChips(updated) + TotalBets(updated) + s.toMain + PotTotal(s.newSidePots) == TotalChips(players) + TotalBets(players)
  {
    var round := RoundContributions(players);
    var refund := SplitRound(round).refund;
    assert TotalOf(round) == TotalBets(players) by {
      RoundFacts(players);
    }
    SplitRoundConserves(round);
    assert refund.Some? ==> SeatTaken(players, refund.value.player) by {
      RefundSeated(players);
    }
    CreditAfterClear(players, refund);
  }

  /** A returned excess goes back to a seat at the table. */
  lemma RefundSeated(players: seq<Player>)
    ensures var refund := SplitRound(RoundContributions(players)).refund;
      refund.Some? ==> SeatTaken(players, refund.value.player)
  {
    var round := RoundContributions(players);
    RoundFacts(players);
    SplitRoundRefund(round);
    var refund := SplitRound(round).refund;
    if refund.Some? {
      var i :| 0 <= i < |round| && round[i].player == refund.value.player && round[i].amount == MaxAmount(round);
      assert SeatTaken(players, round[i].player);
    }
  }

  /** Clearing every bet and crediting a refund to a seated player. */
  lemma CreditAfterClear(players: seq<Player>, refund: Option<Contribution>)
    requires DistinctSeats(players)
    requires refund.Some? ==> SeatTaken(players, refund.value.player)
    ensures var updated := if refund.Some? then Credit(ClearedBets(players), refund.value.player, refund.value.amount)
                           else ClearedBets(players);
      && (forall k :: 0 <= k < |players| ==> updated[k].currentBet == 0 && updated[k].seat == players[k].seat)
      && (forall k :: 0 <= k < |players| ==>
            updated[k].chips == players[k].chips + (if refund.Some? && players[k].seat == refund.value.player then refund.value.amount else 0))
      && TotalChips(updated) == TotalChips(players) + RefundAmount(refund)
      && TotalBets(updated) == 0
  {
    ZeroBets(players);
    var cleared := ClearedBets(players);
    assert DistinctSeats(cleared);
    RoundFacts(players);
    if refund.Some? {
      var j :| 0 <= j < |players| && players[j].seat == refund.value.player;
      assert cleared[j].seat == refund.value.player;
      CreditFacts(cleared, refund.value.player, refund.value.amount);
      SameButChipsSeats(Credit(cleared, refund.value.player, refund.value.amount), cleared);
      ZeroBetsAfterCredit(cleared, refund.value.player, refund.value.amount);
    }
  }

  lemma ZeroBetsAfterCredit(ps: seq<Player>, seat: nat, amount: nat)
    requires TotalBets(ps) == 0
    ensures TotalBets(Credit(ps, seat, amount)) == 0
  {
    match IndexOfSeat(ps, seat)
    case None =>
    case Some(at) => SumOfUpdate(ps, at, ps[at].(chips := ps[at].chips + amount), BetOf);
  }

  /** The returned excess goes to a seat that contributed the most this round. */
  lemma RefundGoesToTopContributor(players: seq<Player>)
    requires RoundContributions(players) != []
    ensures var round := RoundContributions(players);
      && SeatTaken(players, ReturnPlayer(round))
      && exists i :: 0 <= i < |round| && round[i].player == ReturnPlayer(round) && round[i].amount == MaxAmount(round)
  {
    ReturnPlayerOwnsMax(RoundContributions(players));
    RoundFacts(players);
  }

  /** `allocate_side_pots`: the tiers for a set of contributions, without touching the manager. */
  method AllocateSidePots(contributions: seq<Contribution>) returns (pots: seq<SidePot>)
    ensures pots == SidePotsOf(contributions)
    ensures Nested(pots) && forall i :: 0 <= i < |pots| ==> pots[i].amount > 0 && |pots[i].eligible| >= 2
  {
    pots := CalculateSidePots(contributions);
    EligibleListsNested(contributions);
  }
}
