/**
 * The v3 snapshot manager: a bounded, oldest-first store of game-state snapshots keyed by
 * snapshot id, and the conversions from a game context to a snapshot and back.
 * The snapshot id (built from the game id and the clock) is a parameter; deep copies are
 * value copies.
 */
module SnapshotStore {
  import opened Common
  import opened Phases
  import opened Snapshots

  /** `_max_history_size`: the store never keeps more snapshot ids than this. */
  const MaxHistorySize: nat := 100

  // ---------------------------------------------------------------------------------------
  // Python's order on strings, and `sorted(set(...))`

  /** `a < b` on Python strings: the first differing character decides; a proper prefix comes first. */
  predicate LexLess(a: string, b: string)
    decreases |a|
  {
    if a == [] then b != []
    else b != [] && (a[0] < b[0] || (a[0] == b[0] && LexLess(a[1..], b[1..])))
  }

  lemma {:induction false} LexIrreflexive(a: string)
    ensures !LexLess(a, a)
    decreases |a|
  {
    if a != [] {
      LexIrreflexive(a[1..]);
    }
  }

  lemma {:induction false} LexTransitive(a: string, b: string, c: string)
    requires LexLess(a, b) && LexLess(b, c)
    ensures LexLess(a, c)
    decreases |a|
  {
    if a != [] && a[0] == b[0] && b[0] == c[0] {
      LexTransitive(a[1..], b[1..], c[1..]);
    }
  }

  /** Any two different strings are ordered one way or the other. */
  lemma {:induction false} LexTotal(a: string, b: string)
    requires a != b
    ensures LexLess(a, b) || LexLess(b, a)
    decreases |a|
  {
    if a != [] && b != [] && a[0] == b[0] {
      assert a == [a[0]] + a[1..] && b == [b[0]] + b[1..];
      LexTotal(a[1..], b[1..]);
    }
  }

  /** Each string is smaller than every later one (so no string occurs twice). */
  predicate StrictlySorted(s: seq<string>) {
    forall i, j :: 0 <= i < j < |s| ==> LexLess(s[i], s[j])
  }

  lemma SortedFront(x: string, s: seq<string>)
    requires StrictlySorted(s)
    requires forall k :: 0 <= k < |s| ==> LexLess(x, s[k])
    ensures StrictlySorted([x] + s)
  {
    var r := [x] + s;
    forall i, j | 0 <= i < j < |r| ensures LexLess(r[i], r[j]) {
      assert r[j] == s[j - 1];
      if i > 0 {
        assert r[i] == s[i - 1];
      }
    }
  }

  /** `x` added to a sorted listing, in its place; nothing happens when it is already there. */
  function InsertSorted(x: string, s: seq<string>): (r: seq<string>)
    requires StrictlySorted(s)
    ensures StrictlySorted(r)
    ensures forall y :: y in r <==> y == x || y in s
  {
    if s == [] then [x]
    else if x == s[0] then s
    else if LexLess(x, s[0]) then
      assert forall k :: 0 <= k < |s| ==> LexLess(x, s[k]) by {
        forall k | 0 < k < |s| ensures LexLess(x, s[k]) {
          LexTransitive(x, s[0], s[k]);
        }
      }
      SortedFront(x, s);
      [x] + s
    else
      var t := InsertSorted(x, s[1..]);
      assert forall k :: 0 <= k < |t| ==> LexLess(s[0], t[k]) by {
        LexTotal(x, s[0]);
        forall k | 0 <= k < |t| ensures LexLess(s[0], t[k]) {
          assert t[k] in t;
          if t[k] != x {
            var m :| 0 <= m < |s| - 1 && s[1..][m] == t[k];
            assert s[m + 1] == t[k];
          }
        }
      }
      SortedFront(s[0], t);
      [s[0]] + t
  }

  /** `sorted(set(s))`: the elements of `s`, each once, in increasing order. */
  function SortedSet(s: seq<string>): (r: seq<string>)
    ensures StrictlySorted(r)
    ensures forall y :: y in r <==> y in s
  {
    if s == [] then [] else InsertSorted(s[0], SortedSet(s[1..]))
  }

  lemma SortedDistinct(s: seq<string>)
    requires StrictlySorted(s)
    ensures Distinct(s)
  {
    forall i, j | 0 <= i < j < |s| ensures s[i] != s[j] {
      LexIrreflexive(s[i]);
    }
  }

  /** A set of strings has only one strictly increasing listing. */
  lemma {:induction false} SortedUnique(a: seq<string>, b: seq<string>)
    requires StrictlySorted(a) && StrictlySorted(b)
    requires forall y :: y in a <==> y in b
    ensures a == b
    decreases |a|
  {
    if a == [] {
      assert forall k :: 0 <= k < |b| ==> b[k] in b;
    } else {
      assert a[0] in a;
      assert b != [];
      assert a[0] == b[0] by {
        assert a[0] in b && b[0] in b;
        var j :| 0 <= j < |b| && b[j] == a[0];
        var i :| 0 <= i < |a| && a[i] == b[0];
        if i > 0 && j > 0 {
          LexTransitive(a[0], b[0], a[0]);
          LexIrreflexive(a[0]);
        }
      }
      SortedDistinct(a);
      SortedDistinct(b);
      DistinctTail(a);
      DistinctTail(b);
      forall y ensures y in a[1..] <==> y in b[1..] {
        assert a == [a[0]] + a[1..] && b == [b[0]] + b[1..];
        if y in a[1..] {
          assert y in a && y != a[0];
          assert y in b;
        }
        if y in b[1..] {
          assert y in b && y != b[0];
          assert y in a;
        }
      }
      SortedUnique(a[1..], b[1..]);
      assert a == [a[0]] + a[1..] && b == [b[0]] + b[1..];
    }
  }

  // ---------------------------------------------------------------------------------------
  // The game context a snapshot is taken from

  /**
   * One entry of the context's `players` dictionary, with the defaults its reads fall back on
   * already filled in (name: the player id, chips/position/bets: 0, active/all-in: false,
   * status: 'active', no hole cards, no last action).
   */
  datatype PlayerData = PlayerData(
    name: string,
    chips: int,
    holeCards: seq<Card>,
    position: int,
    active: bool,
    isAllIn: bool,
    currentBet: int,
    totalBetThisHand: int,
    lastAction: Option<string>,
    status: string)

  /**
   * The parts of a game context the snapshot manager reads. The two dictionaries keep their
   * insertion order, so they are sequences of (key, value) entries.
   */
  datatype GameContext = GameContext(
    gameId: string,
    phase: Phase,
    players: seq<(string, PlayerData)>,
    ledger: map<string, int>,
    communityCards: seq<Card>,
    currentBet: int,
    currentHandBets: seq<(string, int)>,
    smallBlind: int,
    bigBlind: int,
    activePlayerId: Option<string>)

  /** `ChipLedger.get_balance`: the recorded balance, 0 for a player the ledger does not know. */
  function Balance(ledger: map<string, int>, id: string): (r: int)
    ensures id in ledger ==> r == ledger[id]
    ensures id !in ledger ==> r == 0
  {
    if id in ledger then ledger[id] else 0
  }

  /** A status of 'folded' or 'out' takes a player out of the hand. */
  predicate OutOfHand(status: string) {
    status == "folded" || status == "out"
  }

  /**
   * `_create_player_snapshots`, one entry: chips come from the ledger, and the player counts
   * as active only while marked active and neither folded nor out.
   */
  function PlayerSnapshotOf(id: string, d: PlayerData, ledger: map<string, int>): (r: PlayerSnapshot)
    ensures r.playerId == id && r.chips == Balance(ledger, id)
    ensures r.isActive <==> d.active && !OutOfHand(d.status)
    ensures r.isAllIn == d.isAllIn
  {
    PlayerSnapshot(id, d.name, Balance(ledger, id), d.holeCards, d.position,
      d.active && !OutOfHand(d.status), d.isAllIn, d.currentBet, d.totalBetThisHand, d.lastAction)
  }

  function PlayerSnapshots(ctx: GameContext): (r: seq<PlayerSnapshot>)
    ensures |r| == |ctx.players|
    ensures forall k :: 0 <= k < |r| ==>
      r[k] == PlayerSnapshotOf(ctx.players[k].0, ctx.players[k].1, ctx.ledger)
  {
    seq(|ctx.players|, k requires 0 <= k < |ctx.players| =>
      PlayerSnapshotOf(ctx.players[k].0, ctx.players[k].1, ctx.ledger))
  }

  function BetAmount(e: (string, int)): int { e.1 }

  function BetIds(bets: seq<(string, int)>): (r: seq<string>)
    ensures forall id :: id in r <==> exists k :: 0 <= k < |bets| && bets[k].0 == id
  {
    if bets == [] then [] else [bets[0].0] + BetIds(bets[1..])
  }

  /** The ids of the players whose status does not take them out of the hand, in order. */
  function StillInHand(players: seq<(string, PlayerData)>): (r: seq<string>)
    ensures forall id :: id in r <==>
      exists k :: 0 <= k < |players| && players[k].0 == id && !OutOfHand(players[k].1.status)
  {
    if players == [] then []
    else (if OutOfHand(players[0].1.status) then [] else [players[0].0]) + StillInHand(players[1..])
  }

  /**
   * `_create_pot_snapshot`: the whole pot is the sum of this hand's bets and is all main pot
   * (side pots are left to the pot manager); the eligible players are those with a bet this
   * hand and those not folded or out, each once, in sorted order.
   */
  function PotSnapshotOf(ctx: GameContext): (r: PotSnapshot)
    ensures r.totalPot == SumOf(ctx.currentHandBets, BetAmount)
    ensures r.mainPot == r.totalPot && r.sidePots == []
    ensures StrictlySorted(r.eligiblePlayers)
    ensures forall id :: id in r.eligiblePlayers <==>
      (exists k :: 0 <= k < |ctx.currentHandBets| && ctx.currentHandBets[k].0 == id)
      || (exists k :: 0 <= k < |ctx.players| && ctx.players[k].0 == id && !OutOfHand(ctx.players[k].1.status))
  {
    var total := SumOf(ctx.currentHandBets, BetAmount);
    PotSnapshot(total, [], total, SortedSet(BetIds(ctx.currentHandBets) + StillInHand(ctx.players)))
  }

  /**
   * The eligible players are listed exactly as `sorted` lists them: any strictly increasing
   * listing of the same players is this one.
   */
  lemma EligibleListingUnique(ctx: GameContext, listing: seq<string>)
    requires StrictlySorted(listing)
    requires forall id :: id in listing <==> id in PotSnapshotOf(ctx).eligiblePlayers
    ensures listing == PotSnapshotOf(ctx).eligiblePlayers
  {
    SortedUnique(listing, PotSnapshotOf(ctx).eligiblePlayers);
  }

  /**
   * The blind seats a snapshot records for `n` players, with the dealer at seat 0: the small
   * blind on the next seat and the big blind on the one after, both on seat 1 heads-up, and
   * seat 0 for a lone player.
   */
  function BlindPositions(n: nat): (r: (int, int))
    ensures n >= 1 ==> 0 <= r.0 < n && 0 <= r.1 < n
    ensures n > 1 ==> r.0 == 1
    ensures n > 2 ==> r.1 == r.0 + 1
    ensures r.0 == r.1 <==> n <= 2
    ensures n <= 1 ==> r == (0, 0)
  {
    var sb := if n > 1 then 1 % n else 0;
    var bb := if n > 2 then 2 % n else if n > 1 then 1 else 0;
    (sb, bb)
  }

  /** `_is_player_actionable` for an entry that exists: in the hand, with chips, not folded or out. */
  predicate Actionable(d: PlayerData) {
    d.active && d.chips > 0 && !OutOfHand(d.status)
  }

  /** The dictionary read `players.get(id)`. */
  function FindPlayer(players: seq<(string, PlayerData)>, id: string): (r: Option<PlayerData>)
    ensures r.None? <==> forall k :: 0 <= k < |players| ==> players[k].0 != id
    ensures r.Some? ==> exists k :: 0 <= k < |players| && players[k] == (id, r.value)
  {
    if players == [] then None
    else if players[0].0 == id then Some(players[0].1)
    else FindPlayer(players[1..], id)
  }

  /** `_is_player_actionable`: false for a player the context does not hold. */
  predicate IsActionable(ctx: GameContext, id: string) {
    var d := FindPlayer(ctx.players, id);
    d.Some? && Actionable(d.value)
  }

  /** The position of the first actionable player in dictionary order. */
  function FirstActionablePosition(players: seq<(string, PlayerData)>): (r: Option<int>)
    ensures r.None? <==> forall k :: 0 <= k < |players| ==> !Actionable(players[k].1)
    ensures r.Some? ==> exists k :: 0 <= k < |players| && Actionable(players[k].1) && players[k].1.position == r.value
  {
    if players == [] then None
    else if Actionable(players[0].1) then Some(players[0].1.position)
    else FirstActionablePosition(players[1..])
  }

  /**
   * `_get_active_player_position`: the designated player's position when that player can act,
   * otherwise the first player who can act; None when nobody can.
   */
  function ActivePlayerPosition(ctx: GameContext): (r: Option<int>)
    ensures r.None? <==> forall k :: 0 <= k < |ctx.players| ==> !Actionable(ctx.players[k].1)
    ensures r.Some? ==>
      exists k :: 0 <= k < |ctx.players| && Actionable(ctx.players[k].1) && ctx.players[k].1.position == r.value
    ensures ctx.activePlayerId.Some? && ctx.activePlayerId.value != "" && IsActionable(ctx, ctx.activePlayerId.value)
      ==> r == Some(FindPlayer(ctx.players, ctx.activePlayerId.value).value.position)
  {
    if ctx.activePlayerId.Some? && ctx.activePlayerId.value != "" && IsActionable(ctx, ctx.activePlayerId.value) then
      Some(FindPlayer(ctx.players, ctx.activePlayerId.value).value.position)
    else FirstActionablePosition(ctx.players)
  }

  /** The snapshot `create_snapshot` builds, before its constructors check it. */
  function SnapshotOf(ctx: GameContext, snapshotId: string): GameStateSnapshot {
    var players := PlayerSnapshots(ctx);
    var blinds := BlindPositions(|players|);
    GameStateSnapshot(snapshotId, ctx.gameId, ctx.phase, players, PotSnapshotOf(ctx),
      ctx.communityCards, ctx.currentBet, 0, blinds.0, blinds.1,
      ActivePlayerPosition(ctx), ctx.smallBlind, ctx.bigBlind)
  }

  /** `_get_active_player_id`: the first player seated at the recorded active position. */
  function ActivePlayerId(s: GameStateSnapshot): (r: Option<string>)
    ensures s.activePlayerPosition.None? ==> r.None?
    ensures r.None? && s.activePlayerPosition.Some? ==>
      forall k :: 0 <= k < |s.players| ==> s.players[k].position != s.activePlayerPosition.value
    ensures r.Some? ==> s.activePlayerPosition.Some?
    ensures r.Some? ==>
      exists k :: 0 <= k < |s.players| && s.players[k].playerId == r.value && s.players[k].position == s.activePlayerPosition.value
  {
    if s.activePlayerPosition.None? then None
    else SeatedAt(s.players, s.activePlayerPosition.value)
  }

  function SeatedAt(ps: seq<PlayerSnapshot>, position: int): (r: Option<string>)
    ensures r.None? <==> forall k :: 0 <= k < |ps| ==> ps[k].position != position
    ensures r.Some? ==> exists k :: 0 <= k < |ps| && ps[k].playerId == r.value && ps[k].position == position
  {
    if ps == [] then None
    else if ps[0].position == position then Some(ps[0].playerId)
    else SeatedAt(ps[1..], position)
  }

  /** No two players of the context share a position. */
  predicate DistinctPositions(players: seq<(string, PlayerData)>) {
    forall i, j :: 0 <= i < j < |players| ==> players[i].1.position != players[j].1.position
  }

  /**
   * The player the context designates, when able to act, is the one a restore of the
   * snapshot designates again, as long as no two players share a position.
   */
  lemma DesignatedPlayerSurvives(ctx: GameContext, snapshotId: string)
    requires DistinctPositions(ctx.players)
    requires ctx.activePlayerId.Some? && ctx.activePlayerId.value != ""
    requires IsActionable(ctx, ctx.activePlayerId.value)
    ensures ActivePlayerId(SnapshotOf(ctx, snapshotId)) == ctx.activePlayerId
  {
    var a := ctx.activePlayerId.value;
    var d := FindPlayer(ctx.players, a).value;
    var k :| 0 <= k < |ctx.players| && ctx.players[k] == (a, d);
    var ps := PlayerSnapshots(ctx);
    assert ActivePlayerPosition(ctx) == Some(d.position);
    assert SnapshotOf(ctx, snapshotId).players == ps;
    assert ps[k].playerId == a && ps[k].position == d.position;
    SeatedAtUnique(ctx, k);
  }

  /** With distinct positions, the player seated at the position of entry `k` is that entry's. */
  lemma SeatedAtUnique(ctx: GameContext, k: nat)
    requires DistinctPositions(ctx.players) && k < |ctx.players|
    ensures SeatedAt(PlayerSnapshots(ctx), ctx.players[k].1.position) == Some(ctx.players[k].0)
  {
    var ps := PlayerSnapshots(ctx);
    var r := SeatedAt(ps, ctx.players[k].1.position);
    assert ps[k].position == ctx.players[k].1.position;
    var k' :| 0 <= k' < |ps| && ps[k'].playerId == r.value && ps[k'].position == ctx.players[k].1.position;
    assert ctx.players[k'].1.position == ctx.players[k].1.position;
  }

  // ---------------------------------------------------------------------------------------
  // Restoring a context from a snapshot

  /**
   * `_restore_players_from_snapshot`, one entry: a player is back in the hand when the snapshot
   * marks them active or all-in, and their status is 'all_in' or 'active' accordingly.
   */
  function RestoredPlayer(p: PlayerSnapshot): (r: PlayerData)
    ensures r.active <==> p.isActive || p.isAllIn
    ensures r.status == "all_in" <==> p.isAllIn
    ensures r.status == "all_in" || r.status == "active"
    ensures r.chips == p.chips && r.isAllIn == p.isAllIn && r.position == p.position
  {
    PlayerData(p.name, p.chips, p.holeCards, p.position, p.isActive || p.isAllIn, p.isAllIn,
      p.currentBet, p.totalBetThisHand, p.lastAction, if p.isAllIn then "all_in" else "active")
  }

  /**
   * What a snapshot and a restore keep of a context player: everything but the chips, which
   * come from the ledger, the active flag, which a fold or an all-in rewrites, and the status,
   * which becomes 'all_in' or 'active'.
   */
  lemma RestoredSnapshotOf(id: string, d: PlayerData, ledger: map<string, int>)
    ensures RestoredPlayer(PlayerSnapshotOf(id, d, ledger)) ==
      d.(chips := Balance(ledger, id),
         active := (d.active && !OutOfHand(d.status)) || d.isAllIn,
         status := if d.isAllIn then "all_in" else "active")
  {
  }

  /**
   * A snapshot of a restored player gives back the original snapshot entry, except that an
   * all-in player comes back marked active.
   */
  lemma SnapshotOfRestored(p: PlayerSnapshot, ledger: map<string, int>)
    requires Balance(ledger, p.playerId) == p.chips
    ensures PlayerSnapshotOf(p.playerId, RestoredPlayer(p), ledger) == p.(isActive := p.isActive || p.isAllIn)
  {
  }

  /**
   * The index of the last entry of `ps` with player id `id`, or -1: a dictionary built from
   * `ps` in order keeps that entry for `id`.
   */
  function LastIndex(ps: seq<PlayerSnapshot>, id: string): (r: int)
    ensures -1 <= r < |ps|
    ensures r >= 0 ==> ps[r].playerId == id
    ensures forall j :: r < j < |ps| ==> ps[j].playerId != id
  {
    if ps == [] then -1
    else if ps[|ps| - 1].playerId == id then |ps| - 1
    else LastIndex(ps[..|ps| - 1], id)
  }

  lemma LastIndexExtend(ps: seq<PlayerSnapshot>, i: int)
    requires 0 <= i < |ps|
    ensures forall id :: LastIndex(ps[..i + 1], id) == if ps[i].playerId == id then i else LastIndex(ps[..i], id)
  {
    var t := ps[..i + 1];
    assert t[..i] == ps[..i] && |t| == i + 1 && t[i] == ps[i];
    forall id ensures LastIndex(t, id) == if ps[i].playerId == id then i else LastIndex(ps[..i], id) {
      assert LastIndex(t, id) == if t[i].playerId == id then i else LastIndex(t[..i], id);
    }
  }

  /**
   * `_restore_players_from_snapshot`: a dictionary with an entry per player id of the
   * snapshot, restored from the last snapshot entry with that id.
   */
  method RestorePlayers(ps: seq<PlayerSnapshot>) returns (m: map<string, PlayerData>)
    ensures forall id :: id in m <==> LastIndex(ps, id) >= 0
    ensures forall id | id in m :: m[id] == RestoredPlayer(ps[LastIndex(ps, id)])
  {
    m := map[];
    var i := 0;
    while i < |ps|
      invariant 0 <= i <= |ps|
      invariant forall id :: id in m <==> LastIndex(ps[..i], id) >= 0
      invariant forall id | id in m :: m[id] == RestoredPlayer(ps[LastIndex(ps[..i], id)])
    {
      LastIndexExtend(ps, i);
      m := m[ps[i].playerId := RestoredPlayer(ps[i])];
      i := i + 1;
    }
    assert ps[..i] == ps;
  }

  /** The `initial_balances` dictionary: each player id with the chips of its last snapshot entry. */
  function Balances(ps: seq<PlayerSnapshot>): (r: map<string, int>)
    ensures forall id :: id in r <==> LastIndex(ps, id) >= 0
    ensures forall id | id in r :: r[id] == ps[LastIndex(ps, id)].chips
  {
    if ps == [] then map[]
    else Balances(ps[..|ps| - 1])[ps[|ps| - 1].playerId := ps[|ps| - 1].chips]
  }

  /**
   * The `current_hand_bets` dictionary: the players who put chips in this hand; for each, the
   * last positive total recorded for them.
   */
  function HandBets(ps: seq<PlayerSnapshot>): (r: map<string, int>)
    ensures forall id | id in r :: r[id] > 0
  {
    if ps == [] then map[]
    else
      var n := |ps| - 1;
      var rest := HandBets(ps[..n]);
      if ps[n].totalBetThisHand > 0 then rest[ps[n].playerId := ps[n].totalBetThisHand] else rest
  }

  /**
   * A player has a hand bet after a restore exactly when some snapshot entry of theirs has a
   * positive total; when their last entry does, that total is the one kept.
   */
  lemma {:induction false} HandBetsFacts(ps: seq<PlayerSnapshot>)
    ensures forall id :: id in HandBets(ps) <==>
      exists k :: 0 <= k < |ps| && ps[k].playerId == id && ps[k].totalBetThisHand > 0
    ensures forall id | id in HandBets(ps) && LastIndex(ps, id) >= 0 && ps[LastIndex(ps, id)].totalBetThisHand > 0 ::
      HandBets(ps)[id] == ps[LastIndex(ps, id)].totalBetThisHand
    decreases |ps|
  {
    if ps != [] {
      var n := |ps| - 1;
      var init := ps[..n];
      HandBetsFacts(init);
      assert forall k :: 0 <= k < n ==> init[k] == ps[k];
      forall id ensures id in HandBets(ps) <==>
        exists k :: 0 <= k < |ps| && ps[k].playerId == id && ps[k].totalBetThisHand > 0
      {
        if id in HandBets(init) {
          var k :| 0 <= k < n && init[k].playerId == id && init[k].totalBetThisHand > 0;
          assert ps[k] == init[k];
        }
      }
    }
  }

  /** The ledger `restore_from_snapshot` builds would start with a negative balance (ChipLedger raises ValueError). */
  predicate NegativeBalance(ps: seq<PlayerSnapshot>) {
    exists id | id in Balances(ps) :: Balances(ps)[id] < 0
  }

  /** A snapshot the constructors accept has no negative balance to restore. */
  lemma ConstructibleBalances(s: GameStateSnapshot)
    ensures Constructible(s) ==> !NegativeBalance(s.players)
  {
    if NegativeBalance(s.players) {
      var id :| id in Balances(s.players) && Balances(s.players)[id] < 0;
      assert s.players[LastIndex(s.players, id)].chips < 0;
    }
  }

  /** The game context `restore_from_snapshot` rebuilds. */
  datatype RestoredContext = RestoredContext(
    gameId: string,
    phase: Phase,
    players: map<string, PlayerData>,
    ledger: map<string, int>,
    communityCards: seq<Card>,
    currentBet: int,
    currentHandBets: map<string, int>,
    smallBlind: int,
    bigBlind: int,
    activePlayerId: Option<string>)

  /**
   * `restore_from_snapshot`: fails (SnapshotRestoreError) exactly when the ledger would start
   * with a negative balance; otherwise each id's player is restored from its last entry, the
   * ledger holds that entry's chips, and the designated player is one of them.
   */
  method RestoreFromSnapshot(s: GameStateSnapshot) returns (r: Result<RestoredContext, string>)
    ensures r.Err? <==> NegativeBalance(s.players)
    ensures r.Err? ==> r.error == "SnapshotRestoreError"
    ensures Constructible(s) ==> r.Ok?
    ensures r.Ok? ==> forall id :: id in r.value.players <==> LastIndex(s.players, id) >= 0
    ensures r.Ok? ==> forall id | id in r.value.players :: r.value.players[id] == RestoredPlayer(s.players[LastIndex(s.players, id)])
    ensures r.Ok? ==> r.value.ledger == Balances(s.players)
    ensures r.Ok? ==> r.value.players.Keys == r.value.ledger.Keys
    ensures r.Ok? ==> forall id | id in r.value.players :: r.value.ledger[id] == r.value.players[id].chips
    ensures r.Ok? ==> r.value.currentHandBets == HandBets(s.players)
    ensures r.Ok? ==> r.value.activePlayerId == ActivePlayerId(s)
    ensures r.Ok? && r.value.activePlayerId.Some? ==> r.value.activePlayerId.value in r.value.players
    ensures r.Ok? ==> r.value.gameId == s.gameId && r.value.phase == s.phase && r.value.currentBet == s.currentBet
    ensures r.Ok? ==> r.value.smallBlind == s.smallBlindAmount && r.value.bigBlind == s.bigBlindAmount
    ensures r.Ok? ==> r.value.communityCards == s.communityCards
  {
    var players := RestorePlayers(s.players);
    var ledger := Balances(s.players);
    ConstructibleBalances(s);
    if NegativeBalance(s.players) {
      return Err("SnapshotRestoreError");
    }
    var active := ActivePlayerId(s);
    r := Ok(RestoredContext(s.gameId, s.phase, players, ledger, s.communityCards, s.currentBet,
      HandBets(s.players), s.smallBlindAmount, s.bigBlindAmount, active));
  }

  // ---------------------------------------------------------------------------------------
  // The store

  /** The stored snapshots of `ids`, newest (last) first, skipping ids no longer stored. */
  function NewestFirst(ids: seq<string>, stored: map<string, GameStateSnapshot>): (r: seq<GameStateSnapshot>)
    ensures |r| <= |ids|
    ensures forall k :: 0 <= k < |r| ==> r[k] in stored.Values
  {
    if ids == [] then []
    else NewestFirst(ids[1..], stored) + (if ids[0] in stored then [stored[ids[0]]] else [])
  }

  /** When every id is still stored, entry `k` is the snapshot of the `k`-th id from the end. */
  lemma {:induction false} NewestFirstAllStored(ids: seq<string>, stored: map<string, GameStateSnapshot>)
    requires forall k :: 0 <= k < |ids| ==> ids[k] in stored
    ensures |NewestFirst(ids, stored)| == |ids|
    ensures forall k {:trigger NewestFirst(ids, stored)[k]} :: 0 <= k < |ids| ==> NewestFirst(ids, stored)[k] == stored[ids[|ids| - 1 - k]]
    decreases |ids|
  {
    if ids != [] {
      var tail := ids[1..];
      NewestFirstAllStored(tail, stored);
      forall k | 0 <= k < |ids| - 1 ensures NewestFirst(ids, stored)[k] == stored[ids[|ids| - 1 - k]] {
        assert tail[|tail| - 1 - k] == ids[|ids| - 1 - k];
      }
    }
  }

  /**
   * `history[-limit:]` for a positive limit (the whole history when it is shorter), the
   * whole history otherwise.
   */
  function Window(history: seq<string>, limit: int): (r: seq<string>)
    ensures limit > 0 ==> |r| == Min(limit, |history|)
    ensures limit <= 0 ==> r == history
    ensures r == history[|history| - |r|..]
  {
    if limit > 0 && limit < |history| then history[|history| - limit..] else history
  }

  lemma NewestFirstStep(ids: seq<string>, j: int, stored: map<string, GameStateSnapshot>)
    requires 0 <= j < |ids|
    ensures NewestFirst(ids[j..], stored) ==
      NewestFirst(ids[j + 1..], stored) + (if ids[j] in stored then [stored[ids[j]]] else [])
  {
    assert ids[j..][1..] == ids[j + 1..];
  }

  /** `get_snapshot_history` returns at most `limit` snapshots for a positive limit, and never more than were recorded. */
  lemma RecentHistoryBound(history: seq<string>, limit: int, stored: map<string, GameStateSnapshot>)
    ensures limit > 0 ==> |NewestFirst(Window(history, limit), stored)| <= limit
    ensures |NewestFirst(Window(history, limit), stored)| <= |history|
  {
  }

  /**
   * When every recorded id is still stored, `get_snapshot_history` returns exactly the
   * newest `limit` snapshots (all of them for a limit that is not positive), newest first.
   */
  lemma RecentHistoryAllStored(history: seq<string>, limit: int, stored: map<string, GameStateSnapshot>,
                                r: seq<GameStateSnapshot>)
    requires forall k :: 0 <= k < |history| ==> history[k] in stored
    requires r == NewestFirst(Window(history, limit), stored)
    ensures |r| == (if limit > 0 then Min(limit, |history|) else |history|)
    ensures forall k {:trigger r[k]} :: 0 <= k < |r| ==> r[k] == stored[history[|history| - 1 - k]]
  {
    var ids := Window(history, limit);
    assert forall k :: 0 <= k < |ids| ==> ids[k] in stored by {
      forall k | 0 <= k < |ids| ensures ids[k] in stored {
        assert ids[k] == history[|history| - |ids| + k];
      }
    }
    NewestFirstAllStored(ids, stored);
    forall k | 0 <= k < |r| ensures r[k] == stored[history[|history| - 1 - k]] {
      assert ids[|ids| - 1 - k] == history[|history| - 1 - k];
    }
  }

  class SnapshotManager {
    /** `_snapshots`: the stored snapshots by id. */
    var snapshots: map<string, GameStateSnapshot>
    /** `_snapshot_history`: the ids in the order they were stored, oldest first. */
    var history: seq<string>

    /**
     * The history is bounded, every stored snapshot's id is in the history, and each snapshot
     * is stored under its own id.
     */
    ghost predicate Valid()
      reads this
    {
      |history| <= MaxHistorySize
      && forall id | id in snapshots :: id in history && snapshots[id].snapshotId == id
    }

    constructor ()
      ensures Valid()
      ensures snapshots == map[] && history == []
    {
      snapshots := map[];
      history := [];
    }

    /** `get_snapshot`: None for an id that is not stored. */
    function GetSnapshot(id: string): (r: Option<GameStateSnapshot>)
      reads this
      requires Valid()
      ensures r.None? <==> id !in snapshots
      ensures r.Some? ==> r.value.snapshotId == id
    {
      if id in snapshots then Some(snapshots[id]) else None
    }

    /** `get_latest_snapshot`: None when nothing was stored, else the snapshot stored last, if still kept. */
    function GetLatestSnapshot(): (r: Option<GameStateSnapshot>)
      reads this
      requires Valid()
      ensures history == [] ==> r.None?
      ensures r.Some? ==> r.value.snapshotId == history[|history| - 1]
    {
      if history == [] then None else GetSnapshot(history[|history| - 1])
    }

    /**
     * `_store_snapshot`: when the history is full, the oldest id leaves both the history and
     * the map; then the snapshot is stored under its id and becomes the latest.
     */
    method StoreSnapshot(s: GameStateSnapshot)
      requires Valid()
      modifies this
      ensures Valid()
      ensures |old(history)| >= MaxHistorySize ==>
        history == old(history)[1..] + [s.snapshotId]
        && snapshots == (old(snapshots) - {old(history)[0]})[s.snapshotId := s]
      ensures |old(history)| < MaxHistorySize ==>
        history == old(history) + [s.snapshotId] && snapshots == old(snapshots)[s.snapshotId := s]
      ensures GetLatestSnapshot() == Some(s)
    {
      if |history| >= MaxHistorySize {
        var oldest := history[0];
        history := history[1..];
        snapshots := snapshots - {oldest};
      }
      snapshots := snapshots[s.snapshotId := s];
      history := history + [s.snapshotId];
    }

    /**
     * `create_snapshot`: the snapshot of the context under the given id; it is stored and
     * becomes the latest, unless the snapshot constructors reject it (SnapshotCreationError),
     * in which case nothing changes.
     */
    method CreateSnapshot(ctx: GameContext, snapshotId: string) returns (r: Result<GameStateSnapshot, string>)
      requires Valid()
      modifies this
      ensures Valid()
      ensures r.Err? <==> !Constructible(SnapshotOf(ctx, snapshotId))
      ensures r.Err? ==> r.error == "SnapshotCreationError" && unchanged(this)
      ensures r.Ok? ==> r.value == SnapshotOf(ctx, snapshotId) && GetLatestSnapshot() == Some(r.value)
    {
      var s := SnapshotOf(ctx, snapshotId);
      if !Constructible(s) {
        return Err("SnapshotCreationError");
      }
      StoreSnapshot(s);
      return Ok(s);
    }

    /**
     * `get_snapshot_history`: the snapshots of the last `limit` ids (all ids when `limit` is not
     * positive), newest first, skipping ids no longer stored.
     */
    method GetSnapshotHistory(limit: int) returns (r: seq<GameStateSnapshot>)
      ensures r == NewestFirst(Window(history, limit), snapshots)
      ensures limit > 0 ==> |r| <= limit
      ensures |r| <= |history|
      ensures (forall k :: 0 <= k < |history| ==> history[k] in snapshots) ==>
        |r| == (if limit > 0 then Min(limit, |history|) else |history|)
        && forall k {:trigger r[k]} :: 0 <= k < |r| ==> r[k] == snapshots[history[|history| - 1 - k]]
    {
      var ids := Window(history, limit);
      r := [];
      var j := |ids|;
      while j > 0
        invariant 0 <= j <= |ids|
        invariant r == NewestFirst(ids[j..], snapshots)
      {
        NewestFirstStep(ids, j - 1, snapshots);
        var id := ids[j - 1];
        if id in snapshots {
          r := r + [snapshots[id]];
        }
        j := j - 1;
      }
      assert ids[j..] == ids;
      RecentHistoryBound(history, limit, snapshots);
      if forall k :: 0 <= k < |history| ==> history[k] in snapshots {
        RecentHistoryAllStored(history, limit, snapshots, r);
      }
    }

    /**
     * `clear_old_snapshots`: nothing happens while at most `keepCount` ids are recorded;
     * otherwise the oldest ids beyond the newest `keepCount` (all of them for a negative count)
     * leave both the history and the map.
     */
    method ClearOldSnapshots(keepCount: int)
      requires Valid()
      modifies this
      ensures Valid()
      ensures |old(history)| <= keepCount ==> history == old(history) && snapshots == old(snapshots)
      ensures |old(history)| > keepCount ==>
        var cut := if keepCount < 0 then |old(history)| else |old(history)| - keepCount;
        history == old(history)[cut..]
        && (forall id :: id in snapshots <==> id in old(snapshots) && id !in old(history)[..cut])
        && (forall id | id in snapshots :: snapshots[id] == old(snapshots)[id])
      ensures 0 <= keepCount < |old(history)| ==> |history| == keepCount
      ensures Distinct(old(history)) && (forall k :: 0 <= k < |old(history)| ==> old(history)[k] in old(snapshots)) ==>
        forall k :: 0 <= k < |history| ==> history[k] in snapshots
    {
      if |history| <= keepCount {
        return;
      }
      var cut := if keepCount < 0 then |history| else |history| - keepCount;
      var removed := history[..cut];
      var i := 0;
      while i < |removed|
        invariant 0 <= i <= |removed|
        invariant history == old(history)
        invariant forall id :: id in snapshots <==> id in old(snapshots) && id !in removed[..i]
        invariant forall id | id in snapshots :: snapshots[id] == old(snapshots)[id]
      {
        assert removed[..i + 1] == removed[..i] + [removed[i]];
        snapshots := snapshots - {removed[i]};
        i := i + 1;
      }
      assert removed[..i] == removed;
      history := history[cut..];
      assert old(history) == removed + history;
      if Distinct(old(history)) && (forall k :: 0 <= k < |old(history)| ==> old(history)[k] in old(snapshots)) {
        forall k | 0 <= k < |history| ensures history[k] in snapshots {
          assert history[k] == old(history)[cut + k];
          assert history[k] !in removed;
        }
      }
    }
  }
}
