/**
 * Seat order at the table: the ascending list of seat ids that `sorted([p.seat_id ...])`
 * builds, the position of a seat in it, and clockwise order after a given seat.
 */
module Seating {
  import opened Common
  import opened Players

  /** The seat ids, in list order. */
  function Seats(ps: seq<Player>): (r: seq<nat>)
    ensures |r| == |ps| && forall k :: 0 <= k < |ps| ==> r[k] == ps[k].seat
  {
    seq(|ps|, k requires 0 <= k < |ps| => ps[k].seat)
  }

  predicate Increasing(s: seq<nat>) {
    forall i, j :: 0 <= i < j < |s| ==> s[i] < s[j]
  }

  function Insert(x: nat, s: seq<nat>): seq<nat> {
    if s == [] then [x]
    else if x < s[0] then [x] + s
    else [s[0]] + Insert(x, s[1..])
  }

  lemma {:induction false} InsertMembers(x: nat, s: seq<nat>)
    ensures |Insert(x, s)| == |s| + 1
    ensures forall y :: y in Insert(x, s) <==> y == x || y in s
  {
    if s != [] && x >= s[0] {
      InsertMembers(x, s[1..]);
      assert s == [s[0]] + s[1..];
    }
  }

  /** A cons onto an increasing list whose members all exceed the head stays increasing. */
  lemma ConsIncreasing(h: nat, t: seq<nat>)
    requires Increasing(t) && forall y :: y in t ==> h < y
    ensures Increasing([h] + t)
  {
    forall i, j | 0 <= i < j < |[h] + t| ensures ([h] + t)[i] < ([h] + t)[j] {
      assert ([h] + t)[j] == t[j - 1];
      assert t[j - 1] in t;
      if i > 0 {
        assert ([h] + t)[i] == t[i - 1];
      }
    }
  }

  lemma {:induction false} InsertFacts(x: nat, s: seq<nat>)
    requires Increasing(s) && x !in s
    ensures var r := Insert(x, s);
      && Increasing(r) && |r| == |s| + 1
      && forall y :: y in r <==> y == x || y in s
  {
    InsertMembers(x, s);
    if s != [] {
      if x < s[0] {
        forall y | y in s ensures x < y {
          var k :| 0 <= k < |s| && s[k] == y;
          assert k == 0 || s[0] < s[k];
        }
        ConsIncreasing(x, s);
      } else {
        assert s == [s[0]] + s[1..];
        assert Increasing(s[1..]) by {
          forall i, j | 0 <= i < j < |s[1..]| ensures s[1..][i] < s[1..][j] {
            assert s[1..][i] == s[i + 1] && s[1..][j] == s[j + 1];
          }
        }
        InsertFacts(x, s[1..]);
        forall y | y in Insert(x, s[1..]) ensures s[0] < y {
          if y != x {
            var k :| 0 <= k < |s[1..]| && s[1..][k] == y;
            assert s[k + 1] == y;
          }
        }
        ConsIncreasing(s[0], Insert(x, s[1..]));
      }
    }
  }

  /** `sorted(seats)` for distinct seats. */
  function SortSeats(s: seq<nat>): seq<nat> {
    if s == [] then [] else Insert(s[0], SortSeats(s[1..]))
  }

  lemma {:induction false} SortSeatsFacts(s: seq<nat>)
    requires Distinct(s)
    ensures var r := SortSeats(s);
      && Increasing(r) && |r| == |s|
      && forall y :: y in r <==> y in s
  {
    if s != [] {
      assert Distinct(s[1..]) by {
        forall i, j | 0 <= i < j < |s[1..]| ensures s[1..][i] != s[1..][j] {
          assert s[1..][i] == s[i + 1] && s[1..][j] == s[j + 1];
        }
      }
      SortSeatsFacts(s[1..]);
      assert s[0] !in s[1..] by {
        forall k | 0 <= k < |s[1..]| ensures s[1..][k] != s[0] {
          assert s[1..][k] == s[k + 1];
        }
      }
      InsertFacts(s[0], SortSeats(s[1..]));
      forall y ensures y in s <==> y == s[0] || y in s[1..] {
        assert s == [s[0]] + s[1..];
      }
    }
  }

  /** `sorted([p.seat_id for p in players])` */
  function SortedSeats(ps: seq<Player>): (r: seq<nat>)
    requires DistinctSeats(ps)
    ensures Increasing(r) && |r| == |ps|
    ensures forall y :: y in r <==> exists k :: 0 <= k < |ps| && ps[k].seat == y
  {
    var s := Seats(ps);
    assert Distinct(s);
    SortSeatsFacts(s);
    SortSeats(s)
  }

  /** `list.index(x)`: the position of `x`, if it occurs. */
  function IndexOf(s: seq<nat>, x: nat): (r: Option<nat>)
    ensures r.Some? ==> r.value < |s| && s[r.value] == x
    ensures r.None? <==> x !in s
  {
    if s == [] then None
    else if s[0] == x then Some(0)
    else match IndexOf(s[1..], x)
      case None => None
      case Some(i) => Some(i + 1)
  }

  /** The player sitting at `seat` (`get_player_by_seat`), if any. */
  function PlayerAt(ps: seq<Player>, seat: nat): Option<Player> {
    match IndexOfSeat(ps, seat)
    case None => None
    case Some(i) => Some(ps[i])
  }

  /** Some player at `seat` satisfies `ok`. */
  predicate SeatIs(ps: seq<Player>, seat: nat, ok: Player -> bool) {
    PlayerAt(ps, seat).Some? && ok(PlayerAt(ps, seat).value)
  }

  /** Going clockwise from `from` (ascending seats, wrapping), `x` comes strictly before `y`. */
  predicate ClockwiseBefore(from: nat, x: nat, y: nat) {
    if x > from then y <= from || x < y
    else y <= from && x < y
  }

  /**
   * `x` is the first seat clockwise after `from`, `from` itself excluded, whose player
   * satisfies `ok`.
   */
  predicate FirstClockwise(ps: seq<Player>, from: nat, ok: Player -> bool, x: nat) {
    && x != from && SeatIs(ps, x, ok)
    && forall k :: 0 <= k < |ps| && ps[k].seat != from && ClockwiseBefore(from, ps[k].seat, x) ==> !SeatIs(ps, ps[k].seat, ok)
  }

  /** The player at a listed seat is the listed player when seats are distinct. */
  lemma PlayerAtListed(ps: seq<Player>, k: nat)
    requires DistinctSeats(ps) && k < |ps|
    ensures PlayerAt(ps, ps[k].seat) == Some(ps[k])
  {
    var i := IndexOfSeat(ps, ps[k].seat);
    assert i.Some?;
  }

  // ---------------------------------------------------------------------------------------
  // Scanning the sorted seats round the table

  /** The seat `i` steps after position `start`: `seats[(start + i) % len(seats)]`. */
  function At(seats: seq<nat>, start: nat, i: nat): nat
    requires |seats| > 0
  {
    seats[(start + i) % |seats|]
  }

  /** Within one lap, `%` only wraps once. */
  lemma ModOnce(a: nat, n: nat)
    requires 0 < n && a < 2 * n
    ensures a % n == if a < n then a else a - n
  {
    if a >= n {
      assert a == n + (a - n);
      assert (a - n) % n == a - n;
    }
  }

  /**
   * The loop `for i in range(lo, hi): seat = seats[(start + i) % n]; if ok(player at seat): ...`
   * shared by turn advancement and first-to-act: the first step whose player satisfies `ok`.
   */
  method Scan(ps: seq<Player>, seats: seq<nat>, start: nat, lo: nat, hi: nat, ok: Player -> bool)
    returns (step: Option<nat>)
    requires |seats| > 0 && lo <= hi
    ensures step.Some? ==>
      && lo <= step.value < hi && SeatIs(ps, At(seats, start, step.value), ok)
      && forall j :: lo <= j < step.value ==> !SeatIs(ps, At(seats, start, j), ok)
    ensures step.None? ==> forall j :: lo <= j < hi ==> !SeatIs(ps, At(seats, start, j), ok)
  {
    var i := lo;
    while i < hi
      invariant lo <= i <= hi
      invariant forall j :: lo <= j < i ==> !SeatIs(ps, At(seats, start, j), ok)
    {
      var seat := seats[(start + i) % |seats|];
      var player := PlayerAt(ps, seat);
      if player.Some? && ok(player.value) {
        return Some(i);
      }
      i := i + 1;
    }
    return None;
  }

  /** Steps after `start` in the increasing seat list follow clockwise order of the seat ids. */
  lemma StepsAreClockwise(seats: seq<nat>, start: nat, i: nat, j: nat)
    requires Increasing(seats) && start < |seats|
    requires 1 <= i < |seats| && 1 <= j < |seats|
    ensures ClockwiseBefore(seats[start], At(seats, start, i), At(seats, start, j)) <==> i < j
  {
    var n := |seats|;
    ModOnce(start + i, n);
    ModOnce(start + j, n);
  }

  /** Every seat other than `seats[start]` is some step 1 .. n-1 after it. */
  lemma SeatIsAStep(seats: seq<nat>, start: nat, p: nat) returns (i: nat)
    requires Increasing(seats) && start < |seats| && p < |seats| && p != start
    ensures 1 <= i < |seats| && At(seats, start, i) == seats[p]
  {
    var n := |seats|;
    i := if p > start then p - start else p + n - start;
    ModOnce(start + i, n);
  }

  /**
   * Scanning steps 1 .. n-1 after the seat at position `start` of an increasing seat list that
   * holds every seat whose player satisfies `ok` finds the first such seat clockwise, and
   * finding none means no other seat's player satisfies `ok`.
   */
  lemma ScanIsClockwise(ps: seq<Player>, seats: seq<nat>, from: nat, start: nat, ok: Player -> bool, step: Option<nat>)
    requires Increasing(seats) && start < |seats| && seats[start] == from
    requires forall k :: 0 <= k < |ps| && SeatIs(ps, ps[k].seat, ok) ==> ps[k].seat in seats
    requires step.Some? ==>
      && 1 <= step.value < |seats| && SeatIs(ps, At(seats, start, step.value), ok)
      && forall j :: 1 <= j < step.value ==> !SeatIs(ps, At(seats, start, j), ok)
    requires step.None? ==> forall j :: 1 <= j < |seats| ==> !SeatIs(ps, At(seats, start, j), ok)
    ensures step.Some? ==> FirstClockwise(ps, from, ok, At(seats, start, step.value))
    ensures step.None? ==> forall k :: 0 <= k < |ps| && ps[k].seat != from ==> !SeatIs(ps, ps[k].seat, ok)
  {
    forall k | 0 <= k < |ps| && ps[k].seat != from && SeatIs(ps, ps[k].seat, ok)
      ensures step.Some? && !ClockwiseBefore(from, ps[k].seat, At(seats, start, step.value))
    {
      var p :| 0 <= p < |seats| && seats[p] == ps[k].seat;
      var i := SeatIsAStep(seats, start, p);
      if step.Some? {
        StepsAreClockwise(seats, start, i, step.value);
      }
    }
    if step.Some? {
      var x := At(seats, start, step.value);
      ModOnce(start + step.value, |seats|);
      assert x != from;
    }
  }

  /** Starting one position later shifts every step of a lap by one. */
  lemma ShiftStart(seats: seq<nat>, start: nat, j: nat)
    requires start < |seats| && j < |seats|
    ensures At(seats, (start + 1) % |seats|, j) == At(seats, start, j + 1)
  {
    var n := |seats|;
    ModOnce(start + 1, n);
    ModOnce(start + 1 + j, n);
    if start + 1 == n {
      ModOnce(j, n);
    }
  }

  /** Some seat other than `from` has a player satisfying `ok`. */
  predicate OtherSeatIs(ps: seq<Player>, from: nat, ok: Player -> bool) {
    exists k :: 0 <= k < |ps| && ps[k].seat != from && SeatIs(ps, ps[k].seat, ok)
  }

  /**
   * The first-to-act rule: `x` is the first seat clockwise after `from` whose player satisfies
   * `ok`, or `from` itself when no other seat's player does.
   */
  predicate FirstOrFallback(ps: seq<Player>, from: nat, ok: Player -> bool, x: nat) {
    if OtherSeatIs(ps, from, ok) then FirstClockwise(ps, from, ok, x) else x == from
  }

  /**
   * A full lap, steps 1 .. n after the seat at `start` (so `from` itself is tried last),
   * chooses by the first-to-act rule, with `from` as the fallback when the lap finds nobody.
   */
  lemma FullLapScan(ps: seq<Player>, seats: seq<nat>, from: nat, start: nat, ok: Player -> bool, step: Option<nat>)
    requires Increasing(seats) && start < |seats| && seats[start] == from
    requires forall k :: 0 <= k < |ps| && SeatIs(ps, ps[k].seat, ok) ==> ps[k].seat in seats
    requires step.Some? ==>
      && 1 <= step.value <= |seats| && SeatIs(ps, At(seats, start, step.value), ok)
      && forall j :: 1 <= j < step.value ==> !SeatIs(ps, At(seats, start, j), ok)
    requires step.None? ==> forall j :: 1 <= j <= |seats| ==> !SeatIs(ps, At(seats, start, j), ok)
    ensures FirstOrFallback(ps, from, ok, if step.Some? then At(seats, start, step.value) else from)
  {
    var n := |seats|;
    var inner := if step.Some? && step.value < n then step else None;
    ScanIsClockwise(ps, seats, from, start, ok, inner);
    if inner.Some? {
      var x := At(seats, start, step.value);
      var i := IndexOfSeat(ps, x);
      assert ps[i.value].seat != from && SeatIs(ps, ps[i.value].seat, ok);
    } else if step.Some? {
      ModOnce(start + n, n);
    }
  }

  /**
   * The same rule from a lap that starts one position after `from`, steps 0 .. n-1: the
   * post-flop scan from the seat after the dealer.
   */
  lemma LapFromNext(ps: seq<Player>, seats: seq<nat>, from: nat, start: nat, next: nat, ok: Player -> bool, step: Option<nat>)
    requires Increasing(seats) && start < |seats| && seats[start] == from && next == (start + 1) % |seats|
    requires forall k :: 0 <= k < |ps| && SeatIs(ps, ps[k].seat, ok) ==> ps[k].seat in seats
    requires step.Some? ==>
      && step.value < |seats| && SeatIs(ps, At(seats, next, step.value), ok)
      && forall j :: 0 <= j < step.value ==> !SeatIs(ps, At(seats, next, j), ok)
    requires step.None? ==> forall j :: 0 <= j < |seats| ==> !SeatIs(ps, At(seats, next, j), ok)
    ensures FirstOrFallback(ps, from, ok, if step.Some? then At(seats, next, step.value) else from)
  {
    var n := |seats|;
    var shifted := if step.Some? then Some(step.value + 1) else None;
    forall j | 1 <= j <= n
      ensures At(seats, start, j) == At(seats, next, j - 1)
    {
      ShiftStart(seats, start, j - 1);
    }
    FullLapScan(ps, seats, from, start, ok, shifted);
  }

  /** Filtering players keeps their seats distinct, and a filtered seat is one of a passing player. */
  lemma {:induction false} FilterSeats(ps: seq<Player>, p: Player -> bool)
    requires DistinctSeats(ps)
    ensures DistinctSeats(Filter(ps, p))
    ensures forall y :: y in SortedSeats(Filter(ps, p)) <==> exists k :: 0 <= k < |ps| && p(ps[k]) && ps[k].seat == y
  {
    if ps != [] {
      var init, last := ps[..|ps| - 1], ps[|ps| - 1];
      assert DistinctSeats(init);
      FilterSeats(init, p);
      FilterMembers(init, p);
      var f := Filter(ps, p);
      assert DistinctSeats(f) by {
        forall i, j | 0 <= i < j < |f| ensures f[i].seat != f[j].seat {
          if p(last) && j == |f| - 1 {
            assert f[i] in init;
          }
        }
      }
    }
    FilterMembers(ps, p);
    var f := Filter(ps, p);
    forall y ensures y in SortedSeats(f) <==> exists k :: 0 <= k < |ps| && p(ps[k]) && ps[k].seat == y {
      if y in SortedSeats(f) {
        var i :| 0 <= i < |f| && f[i].seat == y;
        assert f[i] in ps;
      }
      if exists k :: 0 <= k < |ps| && p(ps[k]) && ps[k].seat == y {
        var k :| 0 <= k < |ps| && p(ps[k]) && ps[k].seat == y;
        assert ps[k] in f;
      }
    }
  }

  /** With distinct seats, the player found at a seat is the one listed with it. */
  lemma SeatIsListed(ps: seq<Player>, seat: nat, ok: Player -> bool)
    requires DistinctSeats(ps)
    ensures SeatIs(ps, seat, ok) <==> exists k :: 0 <= k < |ps| && ok(ps[k]) && ps[k].seat == seat
  {
    if exists k :: 0 <= k < |ps| && ok(ps[k]) && ps[k].seat == seat {
      var k :| 0 <= k < |ps| && ok(ps[k]) && ps[k].seat == seat;
      PlayerAtListed(ps, k);
    }
  }
}
