/**
 * Side-pot arithmetic of the v2 engine: splitting the chips that players put in during a
 * betting round into a main pot and side pots, checking that split, and summarising it.
 * A contributions dictionary `{seat: amount}` is a sequence of `Contribution`s in the
 * dictionary's insertion order; seats are its keys.
 */
module SidePots {
  import opened Common

  datatype Contribution = Contribution(player: nat, amount: nat)

  /** A pot and the seats that may win it. */
  datatype SidePot = SidePot(amount: int, eligible: seq<nat>)

  datatype SidePotError = NegativeAmount | NoEligiblePlayers | DuplicateEligiblePlayers

  /** Building a `SidePot` rejects a negative amount, an empty eligible list and a repeated seat. */
  function NewSidePot(amount: int, eligible: seq<nat>): (r: Result<SidePot, SidePotError>)
    ensures r.Ok? <==> amount >= 0 && eligible != [] && Distinct(eligible)
    ensures r.Ok? ==> r.value.amount == amount && r.value.eligible == eligible
    ensures amount < 0 ==> r == Err(NegativeAmount)
  {
    if amount < 0 then Err(NegativeAmount)
    else if eligible == [] then Err(NoEligiblePlayers)
    else if !Distinct(eligible) then Err(DuplicateEligiblePlayers)
    else Ok(SidePot(amount, eligible))
  }

  function AmountOf(c: Contribution): int { c.amount }
  predicate IsPositive(c: Contribution) { c.amount > 0 }
  function Id(x: int): int { x }
  function PotAmountOf(p: SidePot): int { p.amount }

  function Amounts(s: seq<Contribution>): (r: seq<int>)
    ensures |r| == |s|
  {
    seq(|s|, i requires 0 <= i < |s| => s[i].amount)
  }

  function Players(s: seq<Contribution>): (r: seq<nat>)
    ensures |r| == |s|
  {
    seq(|s|, i requires 0 <= i < |s| => s[i].player)
  }

  /** `sum(contributions.values())` */
  function TotalOf(s: seq<Contribution>): int { SumOf(s, AmountOf) }

  /** `sum(pot.amount for pot in pots)` */
  function PotTotal(pots: seq<SidePot>): int { SumOf(pots, PotAmountOf) }

  /** The contributions that take part in the split: positive ones, ascending by amount, ties in input order. */
  function SortedContributions(c: seq<Contribution>): seq<Contribution> {
    SortBy(Filter(c, IsPositive), AmountOf)
  }

  lemma SortedContributionsFacts(c: seq<Contribution>)
    ensures SortedBy(SortedContributions(c), AmountOf)
    ensures forall k :: 0 <= k < |SortedContributions(c)| ==> SortedContributions(c)[k].amount > 0
  {
    var pos := Filter(c, IsPositive);
    SortByFacts(pos, AmountOf);
    SortByMembers(pos, AmountOf);
    FilterMembers(c, IsPositive);
  }

  /**
   * The layers built from `items` (ascending, none below `prev`): a layer whose level equals the
   * previous one adds nothing; a single remaining contributor forms no pot; otherwise the layer
   * `(level - prev) * |items|` is contested by every remaining contributor.
   */
  function Layers(items: seq<Contribution>, prev: int): seq<SidePot>
    decreases |items|
  {
    if items == [] then []
    else if items[0].amount == prev then Layers(items[1..], prev)
    else if |items| <= 1 then []
    else [SidePot((items[0].amount - prev) * |items|, Players(items))] + Layers(items[1..], items[0].amount)
  }

  /** The pots `calculate_side_pots` produces, main pot first. */
  function SidePotsOf(c: seq<Contribution>): seq<SidePot> {
    Layers(SortedContributions(c), 0)
  }

  /** `calculate_side_pots`: the layer loop over the sorted positive contributions. */
  method CalculateSidePots(contributions: seq<Contribution>) returns (pots: seq<SidePot>)
    ensures pots == SidePotsOf(contributions)
  {
    if contributions == [] {
      return [];
    }
    var positive := Filter(contributions, IsPositive);
    if positive == [] {
      return [];
    }
    var sorted := SortedContributions(contributions);
    pots := [];
    var prev: nat := 0;
    var active := |sorted|;
    var idx := 0;
    while idx < |sorted|
      invariant idx <= |sorted| && active == |sorted| - idx
      invariant pots + Layers(sorted[idx..], prev) == SidePotsOf(contributions)
    {
      var amount := sorted[idx].amount;
      var layer := amount - prev;
      ghost var items := sorted[idx..];
      assert items[0] == sorted[idx] && items[1..] == sorted[idx + 1..];
      if layer == 0 {
        assert Layers(items, prev) == Layers(sorted[idx + 1..], prev);
        active := active - 1;
        idx := idx + 1;
        continue;
      }
      if active <= 1 {
        assert Layers(items, prev) == [];
        break;
      }
      var poolAmount := layer * active;
      var eligibles := Players(sorted[idx..]);
      assert Layers(items, prev) == [SidePot(poolAmount, eligibles)] + Layers(sorted[idx + 1..], amount);
      pots := pots + [SidePot(poolAmount, eligibles)];
      prev := amount;
      active := active - 1;
      idx := idx + 1;
    }
  }

  // ---------------------------------------------------------------------------------------
  // What the split promises

  /** The top level minus the level below it (0 below the lowest contributor, 0 when nobody contributed). */
  function Gap(items: seq<Contribution>, prev: int): int {
    if items == [] then 0
    else items[|items| - 1].amount - (if |items| >= 2 then items[|items| - 2].amount else prev)
  }

  /** The layers hold everything above `prev` except the top contributor's uncontested excess. */
  lemma {:induction false} LayersTotal(items: seq<Contribution>, prev: int)
    ensures PotTotal(Layers(items, prev)) == TotalOf(items) - |items| * prev - Gap(items, prev)
    decreases |items|
  {
    if items != [] {
      if items[0].amount == prev {
        LayersTotal(items[1..], prev);
        SkipStep(items, prev);
      } else if |items| > 1 {
        LayersTotal(items[1..], items[0].amount);
        LayerStep(items, prev);
      } else {
        SumOfCons(items[0], [], AmountOf);
        assert items == [items[0]] + [];
        assert |items| * prev == prev;
        assert Layers(items, prev) == [];
      }
    }
  }

  /** A level equal to the previous one adds no pot and leaves the total formula unchanged. */
  lemma SkipStep(items: seq<Contribution>, prev: int)
    requires items != [] && items[0].amount == prev
    requires PotTotal(Layers(items[1..], prev)) == TotalOf(items[1..]) - |items[1..]| * prev - Gap(items[1..], prev)
    ensures PotTotal(Layers(items, prev)) == TotalOf(items) - |items| * prev - Gap(items, prev)
  {
    var m := |items|;
    var rest := items[1..];
    SumOfCons(items[0], rest, AmountOf);
    assert [items[0]] + rest == items;
    assert Layers(items, prev) == Layers(rest, prev);
    assert Gap(rest, prev) == Gap(items, prev) by {
      if m >= 2 {
        assert rest[|rest| - 1] == items[m - 1];
        if m >= 3 {
          assert rest[|rest| - 2] == items[m - 2];
        }
      }
    }
    MulPred(m, prev);
  }

  /** A new level adds `(level - prev) * |items|`, which the total formula accounts for. */
  lemma LayerStep(items: seq<Contribution>, prev: int)
    requires |items| > 1 && items[0].amount != prev
    requires PotTotal(Layers(items[1..], items[0].amount))
      == TotalOf(items[1..]) - |items[1..]| * items[0].amount - Gap(items[1..], items[0].amount)
    ensures PotTotal(Layers(items, prev)) == TotalOf(items) - |items| * prev - Gap(items, prev)
  {
    var m := |items|;
    var rest := items[1..];
    var a0 := items[0].amount;
    SumOfCons(items[0], rest, AmountOf);
    assert [items[0]] + rest == items;
    var pot := SidePot((a0 - prev) * m, Players(items));
    assert Layers(items, prev) == [pot] + Layers(rest, a0);
    SumOfCons(pot, Layers(rest, a0), PotAmountOf);
    assert Gap(rest, a0) == Gap(items, prev) by {
      assert rest[|rest| - 1] == items[m - 1];
      if m >= 3 {
        assert rest[|rest| - 2] == items[m - 2];
      }
    }
    MulPred(m, a0);
    MulDiff(a0, prev, m);
  }

  lemma MulPred(m: int, x: int)
    ensures (m - 1) * x == m * x - x
  {}

  lemma MulDiff(a: int, b: int, m: int)
    ensures (a - b) * m == a * m - b * m
  {}

  /** Built from ascending levels, every pot holds a positive amount: `SidePot` never rejects it. */
  lemma {:induction false} LayersPositive(items: seq<Contribution>, prev: int)
    requires SortedBy(items, AmountOf)
    requires forall k :: 0 <= k < |items| ==> items[k].amount >= prev
    ensures forall i :: 0 <= i < |Layers(items, prev)| ==> Layers(items, prev)[i].amount > 0
    decreases |items|
  {
    if items != [] {
      var next := if items[0].amount == prev then prev else items[0].amount;
      assert SortedBy(items[1..], AmountOf);
      LayersPositive(items[1..], next);
    }
  }

  /** Every pot is contested by at least two seats. */
  lemma {:induction false} LayersContested(items: seq<Contribution>, prev: int)
    ensures forall i :: 0 <= i < |Layers(items, prev)| ==> |Layers(items, prev)[i].eligible| >= 2
    decreases |items|
  {
    if items != [] {
      LayersContested(items[1..], if items[0].amount == prev then prev else items[0].amount);
    }
  }

  /** `a` is the tail end of `b` and strictly shorter. */
  predicate StrictSuffix(a: seq<nat>, b: seq<nat>) {
    |a| < |b| && a == b[|b| - |a|..]
  }

  /** Each pot's eligible seats are a strict suffix of the previous pot's. */
  predicate Nested(pots: seq<SidePot>) {
    forall i :: 0 <= i < |pots| - 1 ==> StrictSuffix(pots[i + 1].eligible, pots[i].eligible)
  }

  lemma {:induction false} LayersNested(items: seq<Contribution>, prev: int)
    ensures Nested(Layers(items, prev))
    ensures Layers(items, prev) != [] ==> TailOfPlayers(Layers(items, prev)[0].eligible, items)
    decreases |items|
  {
    if items != [] {
      var rest := items[1..];
      if items[0].amount == prev {
        LayersNested(rest, prev);
        if Layers(rest, prev) != [] {
          TailOfTail(Layers(rest, prev)[0].eligible, items);
        }
      } else if |items| > 1 {
        LayersNested(rest, items[0].amount);
        var tail := Layers(rest, items[0].amount);
        var pot := SidePot((items[0].amount - prev) * |items|, Players(items));
        assert Layers(items, prev) == [pot] + tail;
        if tail != [] {
          TailOfTail(tail[0].eligible, items);
        }
        NestedCons(pot, tail);
      }
    }
  }

  /** `e` is the players of the last `|e|` contributions. */
  predicate TailOfPlayers(e: seq<nat>, items: seq<Contribution>) {
    |e| <= |items| && e == Players(items)[|items| - |e|..]
  }

  /** A tail of the players after the first is a strict tail of all of them. */
  lemma TailOfTail(e: seq<nat>, items: seq<Contribution>)
    requires items != [] && TailOfPlayers(e, items[1..])
    ensures TailOfPlayers(e, items) && |e| < |items|
  {
    assert Players(items)[1..] == Players(items[1..]);
  }

  /** Putting a pot in front of nested pots whose first is a strict suffix keeps them nested. */
  lemma NestedCons(pot: SidePot, tail: seq<SidePot>)
    requires Nested(tail)
    requires tail != [] ==> StrictSuffix(tail[0].eligible, pot.eligible)
    ensures Nested([pot] + tail)
  {
    var all := [pot] + tail;
    forall i | 0 <= i < |all| - 1
      ensures StrictSuffix(all[i + 1].eligible, all[i].eligible)
    {
      if i > 0 {
        assert all[i] == tail[i - 1] && all[i + 1] == tail[i];
      }
    }
  }

  /** The eligible lists of the pots are nested, and every pot has at least two contenders. */
  lemma EligibleListsNested(c: seq<Contribution>)
    ensures Nested(SidePotsOf(c))
    ensures forall i :: 0 <= i < |SidePotsOf(c)| ==>
      SidePotsOf(c)[i].amount > 0 && |SidePotsOf(c)[i].eligible| >= 2
  {
    SortedContributionsFacts(c);
    LayersNested(SortedContributions(c), 0);
    LayersContested(SortedContributions(c), 0);
    LayersPositive(SortedContributions(c), 0);
  }

  /** Zero contributions play no part, and fewer than two contributors form no pot at all. */
  lemma {:induction false} FewContributorsNoPots(c: seq<Contribution>)
    requires CountIf(c, IsPositive) <= 1
    ensures SidePotsOf(c) == []
  {
    var s := SortedContributions(c);
    SortByFacts(Filter(c, IsPositive), AmountOf);
    SortedContributionsFacts(c);
    assert |s| <= 1;
    if s != [] {
      assert s[1..] == [];
    }
  }

  lemma {:induction false} FilterIdempotent(s: seq<Contribution>)
    ensures Filter(Filter(s, IsPositive), IsPositive) == Filter(s, IsPositive)
  {
    if s != [] {
      var init, last := s[..|s| - 1], s[|s| - 1];
      FilterIdempotent(init);
      FilterAppend(Filter(init, IsPositive), if IsPositive(last) then [last] else [], IsPositive);
      assert [last][..0] == [];
    }
  }

  /** Dropping the zero contributions first gives the same pots. */
  lemma ZeroContributionsIgnored(c: seq<Contribution>)
    ensures SidePotsOf(Filter(c, IsPositive)) == SidePotsOf(c)
  {
    FilterIdempotent(c);
  }

  /** The worked example: 25/50/100 gives 75 for seats 0,1,2 and 50 for seats 1,2; 50 goes back. */
  lemma ThreeWayExample()
    ensures var c := [Contribution(0, 25), Contribution(1, 50), Contribution(2, 100)];
      SidePotsOf(c) == [SidePot(75, [0, 1, 2]), SidePot(50, [1, 2])]
  {
    var c := [Contribution(0, 25), Contribution(1, 50), Contribution(2, 100)];
    ThreeWaySorted(c);
    var s1 := c[1..];
    assert s1 == [c[1], c[2]] && s1[1..] == [c[2]];
    assert Layers(s1[1..], 50) == [];
    assert Players(s1) == [1, 2];
    assert Layers(s1, 25) == [SidePot(50, [1, 2])];
    assert Players(c) == [0, 1, 2];
    assert Layers(c, 0) == [SidePot(75, [0, 1, 2])] + Layers(s1, 25);
  }

  /** The example's contributions are positive and already in ascending order. */
  lemma ThreeWaySorted(c: seq<Contribution>)
    requires c == [Contribution(0, 25), Contribution(1, 50), Contribution(2, 100)]
    ensures SortedContributions(c) == c
  {
    FilterAll(c, IsPositive);
    assert SortBy(c, AmountOf) == c by {
      assert c[1..][1..] == [c[2]];
      assert c[1..] == [c[1], c[2]];
      assert SortBy([c[2]], AmountOf) == [c[2]];
      assert SortBy([c[1], c[2]], AmountOf) == [c[1], c[2]];
    }
  }

  // ---------------------------------------------------------------------------------------
  // Relating the sorted positive contributions to the sort of all of them

  lemma {:induction false} InsertFilter(x: Contribution, s: seq<Contribution>)
    ensures Filter(InsertBy(x, s, AmountOf), IsPositive)
         == if IsPositive(x) then InsertBy(x, Filter(s, IsPositive), AmountOf) else Filter(s, IsPositive)
    decreases |s|, 1
  {
    if s == [] {
      FilterCons(x, s, IsPositive);
    } else if x.amount <= s[0].amount {
      assert InsertBy(x, s, AmountOf) == [x] + s;
      FilterCons(x, s, IsPositive);
      if IsPositive(x) {
        var f := Filter(s[1..], IsPositive);
        FilterCons(s[0], s[1..], IsPositive);
        assert [s[0]] + s[1..] == s;
        assert Filter(s, IsPositive) == [s[0]] + f;
      }
    } else {
      InsertFilterStep(x, s);
    }
  }

  lemma {:induction false} InsertFilterStep(x: Contribution, s: seq<Contribution>)
    requires s != [] && x.amount > s[0].amount
    ensures Filter(InsertBy(x, s, AmountOf), IsPositive) == InsertBy(x, Filter(s, IsPositive), AmountOf)
    decreases |s|, 0
  {
    var f := Filter(s[1..], IsPositive);
    var t := InsertBy(x, s[1..], AmountOf);
    assert InsertBy(x, s, AmountOf) == [s[0]] + t;
    InsertFilter(x, s[1..]);
    assert IsPositive(x);
    assert Filter(t, IsPositive) == InsertBy(x, f, AmountOf);
    FilterCons(s[0], t, IsPositive);
    FilterCons(s[0], s[1..], IsPositive);
    assert [s[0]] + s[1..] == s;
    if IsPositive(s[0]) {
      assert Filter(s, IsPositive) == [s[0]] + f;
      assert ([s[0]] + f)[1..] == f;
      assert InsertBy(x, [s[0]] + f, AmountOf) == [s[0]] + InsertBy(x, f, AmountOf);
    } else {
      assert Filter(s, IsPositive) == f;
    }
  }

  /** Sorting then dropping zeros is dropping zeros then sorting. */
  lemma {:induction false} SortFilterCommute(c: seq<Contribution>)
    ensures Filter(SortBy(c, AmountOf), IsPositive) == SortBy(Filter(c, IsPositive), AmountOf)
  {
    if c != [] {
      SortFilterCommute(c[1..]);
      InsertFilter(c[0], SortBy(c[1..], AmountOf));
      FilterCons(c[0], c[1..], IsPositive);
      assert [c[0]] + c[1..] == c;
      var t := Filter(c[1..], IsPositive);
      assert SortBy(c, AmountOf) == InsertBy(c[0], SortBy(c[1..], AmountOf), AmountOf);
      if IsPositive(c[0]) {
        assert Filter(c, IsPositive) == [c[0]] + t;
        assert ([c[0]] + t)[1..] == t;
        assert SortBy([c[0]] + t, AmountOf) == InsertBy(c[0], SortBy(t, AmountOf), AmountOf);
      } else {
        assert Filter(c, IsPositive) == t;
      }
    }
  }

  /** An ascending sequence of contributions is its zero contributions followed by its positive ones. */
  lemma {:induction false} ZerosThenPositives(w: seq<Contribution>)
    requires SortedBy(w, AmountOf)
    ensures |Filter(w, IsPositive)| <= |w|
    ensures w == w[..|w| - |Filter(w, IsPositive)|] + Filter(w, IsPositive)
    ensures forall k :: 0 <= k < |w| - |Filter(w, IsPositive)| ==> w[k].amount == 0
  {
    if w != [] {
      var init, last := w[..|w| - 1], w[|w| - 1];
      assert SortedBy(init, AmountOf);
      ZerosThenPositives(init);
      var f := Filter(init, IsPositive);
      var m := |init| - |f|;
      if IsPositive(last) {
        assert w == init + [last];
        AppendPositive(init, last);
      } else {
        AllZeroBelow(w);
        CountIfZero(w, IsPositive);
        assert Filter(w, IsPositive) == [];
      }
    }
  }

  /** Zeros then positives stay so when one more positive contribution comes last. */
  lemma AppendPositive(init: seq<Contribution>, last: Contribution)
    requires IsPositive(last) && |Filter(init, IsPositive)| <= |init|
    requires var m := |init| - |Filter(init, IsPositive)|;
      init == init[..m] + Filter(init, IsPositive) && forall k :: 0 <= k < m ==> init[k].amount == 0
    ensures var w, f := init + [last], Filter(init + [last], IsPositive);
      && |f| <= |w| && w == w[..|w| - |f|] + f
      && forall k :: 0 <= k < |w| - |f| ==> w[k].amount == 0
  {
    var w, f := init + [last], Filter(init, IsPositive);
    var m := |init| - |f|;
    assert w[..|w| - 1] == init;
    assert Filter(w, IsPositive) == f + [last];
    assert w[..m] == init[..m];
  }

  /** In an ascending list whose last amount is zero, every amount is zero. */
  lemma AllZeroBelow(w: seq<Contribution>)
    requires SortedBy(w, AmountOf) && w != [] && w[|w| - 1].amount == 0
    ensures forall i :: 0 <= i < |w| ==> !IsPositive(w[i])
  {
    forall i | 0 <= i < |w| ensures !IsPositive(w[i]) {
      if i < |w| - 1 {
        assert AmountOf(w[i]) <= AmountOf(w[|w| - 1]);
      }
    }
  }

  lemma {:induction false} AmountsInsert(x: Contribution, s: seq<Contribution>)
    ensures Amounts(InsertBy(x, s, AmountOf)) == InsertBy(x.amount, Amounts(s), Id)
  {
    if s != [] {
      assert Amounts(s)[0] == s[0].amount;
      assert Amounts(s)[1..] == Amounts(s[1..]);
      if x.amount > s[0].amount {
        AmountsInsert(x, s[1..]);
        assert Amounts([s[0]] + InsertBy(x, s[1..], AmountOf)) == [s[0].amount] + Amounts(InsertBy(x, s[1..], AmountOf));
      } else {
        assert Amounts([x] + s) == [x.amount] + Amounts(s);
      }
    } else {
      assert Amounts([x]) == [x.amount];
    }
  }

  /** `sorted(contributions.values())` is the amounts of the contributions sorted by amount. */
  lemma {:induction false} AmountsSort(c: seq<Contribution>)
    ensures Amounts(SortBy(c, AmountOf)) == SortBy(Amounts(c), Id)
  {
    if c != [] {
      AmountsSort(c[1..]);
      AmountsInsert(c[0], SortBy(c[1..], AmountOf));
      assert Amounts(c)[0] == c[0].amount;
      assert Amounts(c)[1..] == Amounts(c[1..]);
    }
  }

  lemma {:induction false} SumAmounts(c: seq<Contribution>)
    ensures Sum(Amounts(c)) == TotalOf(c)
  {
    if c != [] {
      SumAmounts(c[..|c| - 1]);
      assert Amounts(c)[..|c| - 1] == Amounts(c[..|c| - 1]);
    }
  }

  lemma {:induction false} FilterTotal(c: seq<Contribution>)
    ensures TotalOf(Filter(c, IsPositive)) == TotalOf(c)
  {
    if c != [] {
      var init, last := c[..|c| - 1], c[|c| - 1];
      FilterTotal(init);
      SumOfAppend(Filter(init, IsPositive), if IsPositive(last) then [last] else [], AmountOf);
      assert [last][..0] == [];
    }
  }

  /** The sorted positive contributions carry the whole amount contributed. */
  lemma SortedTotal(c: seq<Contribution>)
    ensures TotalOf(SortedContributions(c)) == TotalOf(c)
  {
    FilterTotal(c);
    SortBySum(Filter(c, IsPositive), AmountOf, AmountOf);
  }

  /** What the pots leave out is the gap between the top two contributions, never negative. */
  lemma PotsPlusExcess(c: seq<Contribution>)
    ensures PotTotal(SidePotsOf(c)) + Gap(SortedContributions(c), 0) == TotalOf(c)
    ensures Gap(SortedContributions(c), 0) >= 0
  {
    SortedContributionsFacts(c);
    LayersTotal(SortedContributions(c), 0);
    SortedTotal(c);
  }

  // ---------------------------------------------------------------------------------------
  // The returned excess and its owner

  /** `max(contributions.values())` */
  function MaxAmount(c: seq<Contribution>): (r: nat)
    requires c != []
    ensures exists i :: 0 <= i < |c| && c[i].amount == r
    ensures forall i :: 0 <= i < |c| ==> c[i].amount <= r
  {
    if |c| == 1 then c[0].amount
    else
      var m := MaxAmount(c[..|c| - 1]);
      assert forall i :: 0 <= i < |c| - 1 ==> c[..|c| - 1][i] == c[i];
      if c[|c| - 1].amount > m then c[|c| - 1].amount else m
  }

  /** Contributions of exactly `level` chips. */
  function AtLevel(level: int): Contribution -> bool {
    (x: Contribution) => x.amount == level
  }

  /** The largest positive contribution is the largest contribution. */
  lemma TopIsMax(c: seq<Contribution>)
    requires SortedContributions(c) != []
    ensures c != []
    ensures MaxAmount(c) == SortedContributions(c)[|SortedContributions(c)| - 1].amount
  {
    var pos := Filter(c, IsPositive);
    var a := SortedContributions(c);
    SortByFacts(pos, AmountOf);
    SortByMembers(pos, AmountOf);
    FilterMembers(c, IsPositive);
    var top := a[|a| - 1].amount;
    assert a[|a| - 1] in c;
    forall i | 0 <= i < |c| ensures c[i].amount <= top {
      if c[i].amount > 0 {
        assert c[i] in multiset(pos);
        assert c[i] in multiset(a);
        BelowTop(a, c[i]);
      }
    }
  }

  /** No member of an ascending list exceeds its last. */
  lemma BelowTop(a: seq<Contribution>, x: Contribution)
    requires SortedBy(a, AmountOf) && x in a
    ensures x.amount <= a[|a| - 1].amount
  {
    var i :| 0 <= i < |a| && a[i] == x;
    if i < |a| - 1 {
      assert AmountOf(a[i]) <= AmountOf(a[|a| - 1]);
    }
  }

  /** In an ascending sequence whose top two levels differ, the top level occurs once. */
  lemma {:induction false} SortedTopOnce(a: seq<Contribution>, prev: int)
    requires SortedBy(a, AmountOf) && a != []
    requires Gap(a, prev) > 0
    ensures CountIf(a, AtLevel(a[|a| - 1].amount)) == 1
  {
    var m := |a|;
    var isTop := AtLevel(a[m - 1].amount);
    var init := a[..m - 1];
    forall k | 0 <= k < |init| ensures !isTop(init[k]) {
      assert init[k] == a[k];
      assert a[k].amount <= a[m - 2].amount;
    }
    CountIfZero(init, isTop);
  }

  /** A positive excess always has exactly one owner: the single contributor of the maximum. */
  lemma ExcessHasUniqueOwner(c: seq<Contribution>)
    requires Gap(SortedContributions(c), 0) > 0
    ensures c != []
    ensures CountIf(c, AtLevel(MaxAmount(c))) == 1
  {
    var pos := Filter(c, IsPositive);
    var a := SortedContributions(c);
    SortedContributionsFacts(c);
    TopIsMax(c);
    SortedTopOnce(a, 0);
    var isTop := AtLevel(a[|a| - 1].amount);
    SortByCount(pos, AmountOf, isTop);
    CountIfFilter(c, IsPositive, isTop);
  }

  /** `get_pot_distribution_summary`'s result. */
  datatype Summary = Summary(
    sidePots: seq<SidePot>,
    totalPotAmount: int,
    returnedAmount: int,
    returnedToPlayer: Option<nat>,
    totalContributed: int,
    validationPassed: bool)

  /**
   * `get_pot_distribution_summary`: the pots, what they hold, what is left over for the sole
   * top contributor, and the as-written validator's verdict on the pots, which fails exactly
   * for a lone positive contributor.
   */
  method GetPotDistributionSummary(contributions: seq<Contribution>) returns (s: Summary)
    ensures s.sidePots == SidePotsOf(contributions)
    ensures s.totalContributed == TotalOf(contributions)
    ensures s.totalPotAmount == PotTotal(s.sidePots)
    ensures s.totalPotAmount + s.returnedAmount == s.totalContributed
    ensures s.returnedAmount == Gap(SortedContributions(contributions), 0) >= 0
    ensures s.returnedToPlayer.Some? <==> s.returnedAmount > 0
    ensures s.returnedToPlayer.Some? ==>
      exists i :: 0 <= i < |contributions| && contributions[i].player == s.returnedToPlayer.value
        && contributions[i].amount == MaxAmount(contributions)
    ensures s.validationPassed == AcceptsAsWritten(contributions, s.sidePots)
    ensures s.validationPassed <==> !(|contributions| == 1 && contributions[0].amount > 0)
  {
    var pots := CalculateSidePots(contributions);
    var totalContributed := TotalOf(contributions);
    var totalInPots := PotTotal(pots);
    var returnedAmount := totalContributed - totalInPots;
    PotsPlusExcess(contributions);
    var returnedTo: Option<nat> := None;
    if returnedAmount > 0 {
      ExcessHasUniqueOwner(contributions);
      var maxContrib := MaxAmount(contributions);
      var maxPlayers := Filter(contributions, AtLevel(maxContrib));
      FilterMembers(contributions, AtLevel(maxContrib));
      if |maxPlayers| == 1 {
        assert maxPlayers[0] in contributions;
        returnedTo := Some(maxPlayers[0].player);
      }
    }
    var ok := ValidateSidePotCalculationAsWritten(contributions, pots);
    SummaryVerdict(contributions);
    s := Summary(pots, totalInPots, returnedAmount, returnedTo, totalContributed, ok);
  }

  // ---------------------------------------------------------------------------------------
  // `validate_side_pot_calculation`

  /** The i-th term of the validator's expected total, as written: the first value times everyone. */
  function TermAsWritten(v: seq<int>, i: nat): int
    requires i < |v|
  {
    if i == 0 then v[0] * |v|
    else if |v| - i > 1 then (v[i] - v[i - 1]) * (|v| - i)
    else 0
  }

  /** The i-th term with the "more than one player left" condition applied to the first value too. */
  function Term(v: seq<int>, i: nat): int
    requires i < |v|
  {
    if |v| - i > 1 then (v[i] - (if i == 0 then 0 else v[i - 1])) * (|v| - i) else 0
  }

  function ExpectedAsWritten(v: seq<int>, k: nat): int
    requires k <= |v|
  {
    if k == 0 then 0 else ExpectedAsWritten(v, k - 1) + TermAsWritten(v, k - 1)
  }

  function Expected(v: seq<int>, k: nat): int
    requires k <= |v|
  {
    if k == 0 then 0 else Expected(v, k - 1) + Term(v, k - 1)
  }

  /** `sorted(contributions.values())` */
  function SortedValues(c: seq<Contribution>): seq<int> {
    SortBy(Amounts(c), Id)
  }

  predicate AcceptsAsWritten(c: seq<Contribution>, pots: seq<SidePot>) {
    if c == [] then pots == []
    else
      SortByFacts(Amounts(c), Id);
      PotTotal(pots) == ExpectedAsWritten(SortedValues(c), |c|)
  }

  predicate Accepts(c: seq<Contribution>, pots: seq<SidePot>) {
    if c == [] then pots == []
    else
      SortByFacts(Amounts(c), Id);
      PotTotal(pots) == Expected(SortedValues(c), |c|)
  }

  /** `validate_side_pot_calculation` as written. */
  method ValidateSidePotCalculationAsWritten(contributions: seq<Contribution>, pots: seq<SidePot>)
    returns (ok: bool)
    ensures ok == AcceptsAsWritten(contributions, pots)
  {
    if contributions == [] {
      return |pots| == 0;
    }
    var totalPotAmount := PotTotal(pots);
    var sortedContribs := SortedValues(contributions);
    SortByFacts(Amounts(contributions), Id);
    var expectedTotal := 0;
    var i := 0;
    while i < |sortedContribs|
      invariant i <= |sortedContribs|
      invariant expectedTotal == ExpectedAsWritten(sortedContribs, i)
    {
      if i == 0 {
        expectedTotal := expectedTotal + sortedContribs[0] * |sortedContribs|;
      } else {
        var remainingPlayers := |sortedContribs| - i;
        if remainingPlayers > 1 {
          expectedTotal := expectedTotal + (sortedContribs[i] - sortedContribs[i - 1]) * remainingPlayers;
        }
      }
      i := i + 1;
    }
    ok := totalPotAmount == expectedTotal;
  }

  /** `validate_side_pot_calculation` with a lone contributor's amount treated as returned, not pooled. */
  method ValidateSidePotCalculation(contributions: seq<Contribution>, pots: seq<SidePot>)
    returns (ok: bool)
    ensures ok == Accepts(contributions, pots)
  {
    if contributions == [] {
      return |pots| == 0;
    }
    var totalPotAmount := PotTotal(pots);
    var sortedContribs := SortedValues(contributions);
    SortByFacts(Amounts(contributions), Id);
    var expectedTotal := 0;
    var i := 0;
    while i < |sortedContribs|
      invariant i <= |sortedContribs|
      invariant expectedTotal == Expected(sortedContribs, i)
    {
      var remainingPlayers := |sortedContribs| - i;
      if remainingPlayers > 1 {
        var below := if i == 0 then 0 else sortedContribs[i - 1];
        expectedTotal := expectedTotal + (sortedContribs[i] - below) * remainingPlayers;
      }
      i := i + 1;
    }
    ok := totalPotAmount == expectedTotal;
  }

  /** The validator as written rejects the correct (empty) split of a lone positive contribution. */
  lemma AsWrittenRejectsLoneContributor(player: nat, amount: nat)
    requires amount > 0
    ensures SidePotsOf([Contribution(player, amount)]) == []
    ensures !AcceptsAsWritten([Contribution(player, amount)], SidePotsOf([Contribution(player, amount)]))
  {
    var c := [Contribution(player, amount)];
    FewContributorsNoPots(c);
    var v: seq<int> := [amount];
    assert Amounts(c) == v;
    assert v[1..] == [];
    assert SortBy(v, Id) == InsertBy(amount, [], Id) == v;
    assert ExpectedAsWritten(v, 1) == amount;
    assert PotTotal(SidePotsOf(c)) == 0;
  }

  /** With two or more values the first term's extra condition never applies. */
  lemma {:induction false} ExpectedAgrees(v: seq<int>, k: nat)
    requires 2 <= |v| && k <= |v|
    ensures ExpectedAsWritten(v, k) == Expected(v, k)
  {
    if k > 0 {
      ExpectedAgrees(v, k - 1);
      assert TermAsWritten(v, k - 1) == Term(v, k - 1);
    }
  }

  /** The two validators differ only on a single contribution. */
  lemma AsWrittenAgrees(c: seq<Contribution>, pots: seq<SidePot>)
    requires |c| != 1
    ensures AcceptsAsWritten(c, pots) == Accepts(c, pots)
  {
    if c != [] {
      SortByFacts(Amounts(c), Id);
      ExpectedAgrees(SortedValues(c), |c|);
    }
  }

  /** The as-written verdict on the computed pots: it fails exactly for a lone positive contributor. */
  lemma SummaryVerdict(c: seq<Contribution>)
    ensures AcceptsAsWritten(c, SidePotsOf(c)) <==> !(|c| == 1 && c[0].amount > 0)
  {
    if |c| == 1 {
      if c[0].amount > 0 {
        assert c == [Contribution(c[0].player, c[0].amount)];
        AsWrittenRejectsLoneContributor(c[0].player, c[0].amount);
      } else {
        FewContributorsNoPots(c);
        var v: seq<int> := [c[0].amount];
        assert Amounts(c) == v;
        assert v[1..] == [];
        assert SortBy(v, Id) == InsertBy(c[0].amount, [], Id) == v;
        assert ExpectedAsWritten(v, 1) == 0;
      }
    } else {
      CalculationValidates(c);
      AsWrittenAgrees(c, SidePotsOf(c));
    }
  }

  /** Telescoping: the first k terms sum to the first k values plus the k-th value for each later player. */
  lemma {:induction false} ExpectedPrefix(v: seq<int>, k: nat)
    requires k < |v|
    ensures Expected(v, k) == Sum(v[..k]) + (if k == 0 then 0 else v[k - 1]) * (|v| - k)
  {
    if k > 0 {
      ExpectedPrefix(v, k - 1);
      assert v[..k][..k - 1] == v[..k - 1];
      var below := if k - 1 == 0 then 0 else v[k - 2];
      assert Term(v, k - 1) == (v[k - 1] - below) * (|v| - k + 1);
      assert (v[k - 1] - below) * (|v| - k + 1) == v[k - 1] + v[k - 1] * (|v| - k) - below * (|v| - k + 1);
    }
  }

  /** The corrected validator expects the whole amount minus the gap between the top two values. */
  lemma ExpectedTotal(v: seq<int>)
    requires v != []
    ensures Expected(v, |v|) == Sum(v) - v[|v| - 1] + (if |v| >= 2 then v[|v| - 2] else 0)
  {
    var n := |v|;
    ExpectedPrefix(v, n - 1);
    assert v[..n - 1] == v[..|v| - 1];
    assert v[..n] == v;
  }

  /** `sorted(contributions.values())` carries the whole amount. */
  lemma SortedValuesSum(c: seq<Contribution>)
    ensures Sum(SortedValues(c)) == TotalOf(c)
  {
    AmountsSort(c);
    SortBySum(c, AmountOf, AmountOf);
    SumAmounts(SortBy(c, AmountOf));
  }

  /** Zeros in front of `a` do not change the gap between the top two levels. */
  lemma ZeroPrefixGap(pre: seq<Contribution>, a: seq<Contribution>)
    requires pre + a != []
    requires forall k :: 0 <= k < |pre| ==> pre[k].amount == 0
    ensures var w := pre + a;
      w[|w| - 1].amount - (if |w| >= 2 then w[|w| - 2].amount else 0) == Gap(a, 0)
  {
    var w := pre + a;
    var n, m := |w|, |a|;
    if m >= 1 {
      assert w[n - 1] == a[m - 1];
      if m >= 2 {
        assert w[n - 2] == a[m - 2];
      } else if n >= 2 {
        assert w[n - 2] == pre[|pre| - 1];
      }
    } else {
      assert w == pre;
    }
  }

  /** Sorting all contributions puts the zero ones in front of the sorted positive ones. */
  lemma ZerosFirst(c: seq<Contribution>) returns (pre: seq<Contribution>)
    ensures SortBy(c, AmountOf) == pre + SortedContributions(c)
    ensures forall k :: 0 <= k < |pre| ==> pre[k].amount == 0
  {
    var w := SortBy(c, AmountOf);
    SortByFacts(c, AmountOf);
    SortFilterCommute(c);
    ZerosThenPositives(w);
    var f := Filter(w, IsPositive);
    pre := w[..|w| - |f|];
    assert f == SortedContributions(c);
  }

  /** The top two of all sorted values differ by the top two of the positive ones. */
  lemma SortedValuesGap(c: seq<Contribution>)
    requires c != []
    ensures |SortedValues(c)| == |c|
    ensures var v := SortedValues(c);
      v[|v| - 1] - (if |v| >= 2 then v[|v| - 2] else 0) == Gap(SortedContributions(c), 0)
  {
    SortByFacts(c, AmountOf);
    var pre := ZerosFirst(c);
    ZeroPrefixGap(pre, SortedContributions(c));
    AmountsSort(c);
    TopTwoAmounts(SortBy(c, AmountOf));
  }

  /** The top two amounts of a list, read off its list of amounts. */
  lemma TopTwoAmounts(w: seq<Contribution>)
    requires w != []
    ensures var v, n := Amounts(w), |w|;
      v[n - 1] - (if n >= 2 then v[n - 2] else 0) == w[n - 1].amount - (if n >= 2 then w[n - 2].amount else 0)
  {
  }

  /** The corrected validator accepts every split `calculate_side_pots` produces. */
  lemma CalculationValidates(c: seq<Contribution>)
    ensures Accepts(c, SidePotsOf(c))
  {
    if c == [] {
      assert SortedContributions(c) == [];
    } else {
      SortedValuesGap(c);
      SortedValuesSum(c);
      ExpectedTotal(SortedValues(c));
      PotsPlusExcess(c);
    }
  }
}
