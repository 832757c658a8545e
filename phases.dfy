/**
 * The game phases shared by every engine version and the linear phase order that the
 * game-state classes step through with `advance_phase`.
 * The enumeration's own source file is not part of this model; its members are the seven
 * values the state code names.
 */
module Phases {
  import opened Common

  datatype Phase = Init | PreFlop | Flop | Turn | River | Showdown | Finished

  /** The order `advance_phase` walks: PRE_FLOP, FLOP, TURN, RIVER, SHOWDOWN. */
  const BettingOrder: seq<Phase> := [PreFlop, Flop, Turn, River, Showdown]

  /** `phase_order.index(phase)`, or None where `index` raises. */
  function OrderIndex(p: Phase): (r: Option<nat>)
    ensures r.None? <==> p !in BettingOrder
    ensures r.Some? ==> r.value < |BettingOrder| && BettingOrder[r.value] == p
  {
    match p
    case PreFlop => Some(0)
    case Flop => Some(1)
    case Turn => Some(2)
    case River => Some(3)
    case Showdown => Some(4)
    case _ => None
  }

  /**
   * `advance_phase`: one step along the order; SHOWDOWN stays where it is, and a phase the
   * order does not list (INIT, FINISHED) becomes SHOWDOWN.
   */
  function NextInOrder(p: Phase): (r: Phase)
    ensures r in BettingOrder
    ensures OrderIndex(p).Some? && p != Showdown ==> OrderIndex(r).value == OrderIndex(p).value + 1
    ensures p == Showdown || OrderIndex(p).None? ==> r == Showdown
  {
    match OrderIndex(p)
    case None => Showdown
    case Some(i) => if i < |BettingOrder| - 1 then BettingOrder[i + 1] else p
  }

  /** `n` successive calls of `advance_phase`. */
  function Advance(p: Phase, n: nat): Phase
    decreases n
  {
    if n == 0 then p else Advance(NextInOrder(p), n - 1)
  }

  /** Each step moves one place along the order, so from PRE_FLOP the k-th step lands on the k-th phase. */
  lemma {:induction false} AdvanceFromPreFlop(k: nat)
    requires k < |BettingOrder|
    ensures Advance(PreFlop, k) == BettingOrder[k]
  {
    if k > 0 {
      AdvanceStep(PreFlop, k - 1);
      AdvanceFromPreFlop(k - 1);
    }
  }

  /** Advancing `n + 1` times is advancing `n` times and then once more. */
  lemma {:induction false} AdvanceStep(p: Phase, n: nat)
    ensures Advance(p, n + 1) == NextInOrder(Advance(p, n))
    decreases n
  {
    if n > 0 {
      AdvanceStep(NextInOrder(p), n - 1);
    }
  }

  /** Whatever the starting phase, at most four advances reach SHOWDOWN, and it is never left. */
  lemma {:induction false} AdvanceReachesShowdown(p: Phase, n: nat)
    requires n >= 4
    ensures Advance(p, n) == Showdown
  {
    var i := if OrderIndex(p).Some? then OrderIndex(p).value else 4;
    ShowdownWithin(p, 4 - i, n);
  }

  lemma {:induction false} ShowdownWithin(p: Phase, d: nat, n: nat)
    requires (OrderIndex(p).Some? && d == 4 - OrderIndex(p).value) || (OrderIndex(p).None? && d == 0 && n > 0)
    requires n >= d
    ensures Advance(p, n) == Showdown
    decreases n
  {
    if n > 0 {
      if p == Showdown || OrderIndex(p).None? {
        ShowdownStays(n - 1);
      } else {
        ShowdownWithin(NextInOrder(p), d - 1, n - 1);
      }
    }
  }

  lemma {:induction false} ShowdownStays(n: nat)
    ensures Advance(Showdown, n) == Showdown
  {
    if n > 0 {
      ShowdownStays(n - 1);
    }
  }

  /** The enumeration member's `.name`, the string the application layer passes around. */
  function Name(p: Phase): string {
    match p
    case Init => "INIT"
    case PreFlop => "PRE_FLOP"
    case Flop => "FLOP"
    case Turn => "TURN"
    case River => "RIVER"
    case Showdown => "SHOWDOWN"
    case Finished => "FINISHED"
  }

  /** Distinct phases have distinct names, so a name identifies its phase. */
  lemma NameInjective(p: Phase, q: Phase)
    ensures Name(p) == Name(q) <==> p == q
  {
  }
}
