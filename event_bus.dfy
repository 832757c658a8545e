/**
 * The synchronous event bus of the AI players: subscriptions per event type and for every
 * event, kept in descending priority order; publishing with a bounded history; and the
 * history query.
 * Handlers and filters are foreign code: what each filter answers and whether each handler
 * raises are parameters of `Publish`. The subscription id (a fresh UUID) is a parameter of
 * `Subscribe`. The lock is left out: the bus is used from one thread.
 */
module Bus {
  import opened Common

  /** A `GameEventType` member, by name; the enum is not part of this model. */
  type EventType = string

  datatype Event = Event(eventType: EventType, message: string)

  /** An `EventSubscription`; its handler is identified with the subscription itself. */
  datatype Subscription = Subscription(id: string, priority: int, hasFilter: bool)

  /** What `subscribe` is given: a string (the name of a type, or '*') or an enum member. */
  datatype Target = Named(name: string) | OfType(t: EventType)

  /** What calling a subscription's filter on an event does. */
  datatype FilterOutcome = Accepts | Rejects | Raises

  /** Where a subscription id was found. */
  datatype Location = InTyped(entry: nat, index: nat) | InGlobals(index: nat) | Nowhere

  /** Beyond this many events the history is cut back ... */
  const HistoryLimit: nat := 1000
  /** ... to this many of the newest. */
  const HistoryKeep: nat := 500

  /** `str.upper` on ASCII letters; other characters are kept. */
  function Upper(s: string): (r: string)
    ensures |r| == |s|
    ensures forall k :: 0 <= k < |s| && 'a' <= s[k] <= 'z' ==> r[k] == (s[k] as int - 32) as char
    ensures forall k :: 0 <= k < |s| && !('a' <= s[k] <= 'z') ==> r[k] == s[k]
  {
    seq(|s|, k requires 0 <= k < |s| => if 'a' <= s[k] <= 'z' then (s[k] as int - 32) as char else s[k])
  }

  // ---------------------------------------------------------------------------------------
  // Subscriber lists in descending priority order

  predicate SortedDesc(s: seq<Subscription>) {
    forall i, j :: 0 <= i < j < |s| ==> s[i].priority >= s[j].priority
  }

  /** How many leading subscriptions have at least priority `p`. */
  function InsertPos(s: seq<Subscription>, p: int): (r: nat)
    ensures r <= |s|
    ensures forall k :: 0 <= k < r ==> s[k].priority >= p
    ensures r < |s| ==> s[r].priority < p
  {
    if s == [] || s[0].priority < p then 0 else 1 + InsertPos(s[1..], p)
  }

  /**
   * Appending `x` and sorting by descending priority with Python's stable sort keeps the list
   * sorted and adds `x` to it (where: `InsertDescPlace`).
   */
  function InsertDesc(s: seq<Subscription>, x: Subscription): (r: seq<Subscription>)
    requires SortedDesc(s)
    ensures SortedDesc(r)
    ensures multiset(r) == multiset(s) + multiset{x}
    ensures |r| == |s| + 1
  {
    var k := InsertPos(s, x.priority);
    InsertKeepsOrder(s, x, k);
    s[..k] + [x] + s[k..]
  }

  /** Placing `x` at the stable sort's position keeps the list sorted. */
  lemma InsertKeepsOrder(s: seq<Subscription>, x: Subscription, k: nat)
    requires SortedDesc(s) && k <= |s|
    requires forall i :: 0 <= i < k ==> s[i].priority >= x.priority
    requires k < |s| ==> s[k].priority < x.priority
    ensures SortedDesc(s[..k] + [x] + s[k..])
    ensures multiset(s[..k] + [x] + s[k..]) == multiset(s) + multiset{x}
  {
    var r := s[..k] + [x] + s[k..];
    TailBelow(s, x, k);
    InsertedAt(s, x, k);
    forall i, j | 0 <= i < j < |r| ensures r[i].priority >= r[j].priority {
      if j < k {
        assert s[i].priority >= s[j].priority;
      } else if i > k {
        assert s[i - 1].priority >= s[j - 1].priority;
      } else if i < k && j > k {
        assert s[i].priority >= s[j - 1].priority;
      }
    }
    SplitAt(s, k);
  }

  /** The elements of the list with `x` placed at `k`. */
  lemma InsertedAt(s: seq<Subscription>, x: Subscription, k: nat)
    requires k <= |s|
    ensures |s[..k] + [x] + s[k..]| == |s| + 1 && (s[..k] + [x] + s[k..])[k] == x
    ensures forall i :: 0 <= i < k ==> (s[..k] + [x] + s[k..])[i] == s[i]
    ensures forall i :: k < i <= |s| ==> (s[..k] + [x] + s[k..])[i] == s[i - 1]
  {
  }

  /** Everything from the stable sort's position on has a lower priority than `x`. */
  lemma TailBelow(s: seq<Subscription>, x: Subscription, k: nat)
    requires SortedDesc(s) && k <= |s|
    requires k < |s| ==> s[k].priority < x.priority
    ensures forall i :: k <= i < |s| ==> s[i].priority < x.priority
  {
    forall i | k < i < |s| ensures s[i].priority < x.priority {
      assert s[k].priority >= s[i].priority;
    }
  }

  lemma SplitAt(s: seq<Subscription>, k: nat)
    requires k <= |s|
    ensures s == s[..k] + s[k..]
  {
  }

  /**
   * Where the stable sort puts `x`: after every subscription of at least its priority and
   * before every one of lower priority, the others keeping their order.
   */
  lemma InsertDescPlace(s: seq<Subscription>, x: Subscription)
    requires SortedDesc(s)
    ensures exists k ::
      (0 <= k <= |s| && InsertDesc(s, x) == s[..k] + [x] + s[k..]
       && (forall i :: 0 <= i < k ==> s[i].priority >= x.priority)
       && (forall i :: k <= i < |s| ==> s[i].priority < x.priority))
  {
    var k := InsertPos(s, x.priority);
    TailBelow(s, x, k);
    assert InsertDesc(s, x) == s[..k] + [x] + s[k..];
  }

  /**
   * Subscribing with a fresh id and then unsubscribing that id gives the list back: the new
   * subscription is the first with its id, and removing it restores the others in their order.
   */
  lemma {:induction false} InsertThenRemove(s: seq<Subscription>, x: Subscription)
    requires SortedDesc(s)
    requires forall k :: 0 <= k < |s| ==> s[k].id != x.id
    ensures IndexOf(InsertDesc(s, x), x.id) >= 0
    ensures RemoveAt(InsertDesc(s, x), IndexOf(InsertDesc(s, x), x.id)) == s
  {
    var r := InsertDesc(s, x);
    InsertDescPlace(s, x);
    var k :| 0 <= k <= |s| && r == s[..k] + [x] + s[k..];
    assert forall j :: 0 <= j < k ==> r[j] == s[j];
    IndexOfFirst(r, x.id, k);
    SplitAround(s, x, k);
  }

  lemma SplitAround(s: seq<Subscription>, x: Subscription, k: nat)
    requires k <= |s|
    ensures RemoveAt(s[..k] + [x] + s[k..], k) == s
  {
    var r := s[..k] + [x] + s[k..];
    assert r[..k] == s[..k] && r[k + 1..] == s[k..];
    assert s[..k] + s[k..] == s;
  }

  function RemoveAt(s: seq<Subscription>, k: nat): (r: seq<Subscription>)
    requires k < |s|
    ensures |r| == |s| - 1
    ensures multiset(r) == multiset(s) - multiset{s[k]}
    ensures SortedDesc(s) ==> SortedDesc(r)
  {
    var r := s[..k] + s[k + 1..];
    assert s == s[..k] + [s[k]] + s[k + 1..];
    assert SortedDesc(s) ==> SortedDesc(r) by {
      if SortedDesc(s) {
        forall i, j | 0 <= i < j < |r| ensures r[i].priority >= r[j].priority {
          var si := if i < k then i else i + 1;
          var sj := if j < k then j else j + 1;
          assert r[i] == s[si] && r[j] == s[sj];
        }
      }
    }
    r
  }

  /** The position of the first subscription with id `id`, or -1. */
  function IndexOf(s: seq<Subscription>, id: string): (r: int)
    ensures -1 <= r < |s|
    ensures r >= 0 ==> s[r].id == id && forall k :: 0 <= k < r ==> s[k].id != id
    ensures r == -1 <==> forall k :: 0 <= k < |s| ==> s[k].id != id
  {
    if s == [] then -1
    else if s[0].id == id then 0
    else
      var i := IndexOf(s[1..], id);
      if i == -1 then -1 else i + 1
  }

  /** The entry of the per-type dictionary for `t`, if there is one. */
  function EntryOf(typed: seq<(EventType, seq<Subscription>)>, t: EventType): (r: int)
    ensures -1 <= r < |typed|
    ensures r >= 0 ==> typed[r].0 == t && forall k :: 0 <= k < r ==> typed[k].0 != t
    ensures r == -1 <==> forall k :: 0 <= k < |typed| ==> typed[k].0 != t
  {
    if typed == [] then -1
    else if typed[0].0 == t then 0
    else
      var i := EntryOf(typed[1..], t);
      if i == -1 then -1 else i + 1
  }

  /**
   * Where `unsubscribe` finds `id`, searching the per-type lists from entry `from` on (in
   * dictionary order) and then the global list: the first list holding it, at its first position.
   */
  function Locate(typed: seq<(EventType, seq<Subscription>)>, globals: seq<Subscription>, id: string, from: nat): (r: Location)
    requires from <= |typed|
    ensures r.InTyped? ==>
      (from <= r.entry < |typed| && r.index < |typed[r.entry].1|
       && typed[r.entry].1[r.index].id == id
       && forall e :: from <= e < r.entry ==> IndexOf(typed[e].1, id) == -1)
    ensures r.InGlobals? ==>
      (r.index < |globals| && globals[r.index].id == id
       && forall e :: from <= e < |typed| ==> IndexOf(typed[e].1, id) == -1)
    ensures r.Nowhere? <==>
      (forall e :: from <= e < |typed| ==> IndexOf(typed[e].1, id) == -1) && IndexOf(globals, id) == -1
    decreases |typed| - from
  {
    if from == |typed| then
      var k := IndexOf(globals, id);
      if k == -1 then Nowhere else InGlobals(k)
    else
      var k := IndexOf(typed[from].1, id);
      if k >= 0 then InTyped(from, k) else Locate(typed, globals, id, from + 1)
  }

  /** Whether a subscription takes the event: no filter, or a filter that answers true without raising. */
  predicate ShouldHandle(sub: Subscription, outcome: FilterOutcome) {
    !sub.hasFilter || outcome == Accepts
  }

  // ---------------------------------------------------------------------------------------
  // The history

  /** `publish`'s cut: once longer than the limit, only the newest 500 events stay. */
  function Truncated(h: seq<Event>): (r: seq<Event>)
    ensures |h| <= HistoryLimit ==> r == h
    ensures |h| > HistoryLimit ==> |r| == HistoryKeep
  {
    if |h| > HistoryLimit then h[|h| - HistoryKeep..] else h
  }

  /** The events of type `t` (all events when no type is given), in order. */
  function OfTypeOnly(h: seq<Event>, t: Option<EventType>): (r: seq<Event>)
    ensures forall k :: 0 <= k < |r| ==> t.None? || r[k].eventType == t.value
    ensures t.None? ==> r == h
  {
    if t.None? then h
    else
      var r := Filter(h, (e: Event) => e.eventType == t.value);
      FilterMembers(h, (e: Event) => e.eventType == t.value);
      assert forall k :: 0 <= k < |r| ==> r[k] in r;
      r
  }

  /**
   * `history[-limit:]` when a non-zero limit is given: the newest `limit` events for a
   * positive one; for a negative one, Python's slice drops the oldest `-limit` events instead.
   */
  function Newest(h: seq<Event>, limit: Option<int>): (r: seq<Event>)
    ensures limit.None? || limit.value == 0 ==> r == h
    ensures limit.Some? && limit.value > 0 ==> |r| == Min(limit.value, |h|)
    ensures limit.Some? && limit.value < 0 ==> |r| == |h| - Min(-limit.value, |h|)
    ensures r == h[|h| - |r|..]
  {
    if limit.None? || limit.value == 0 then h
    else if limit.value > 0 then (if limit.value < |h| then h[|h| - limit.value..] else h)
    else (if -limit.value < |h| then h[-limit.value..] else [])
  }

  /** One list per known event type, each in descending priority order. */
  ghost predicate ListsOk(typed: seq<(EventType, seq<Subscription>)>, eventTypes: set<EventType>) {
    (forall e :: 0 <= e < |typed| ==> typed[e].0 in eventTypes && SortedDesc(typed[e].1))
    && (forall e, f :: 0 <= e < f < |typed| ==> typed[e].0 != typed[f].0)
  }

  /** The history is bounded and holds the newest events published, in order. */
  ghost predicate HistoryOk(history: seq<Event>, published: seq<Event>) {
    |history| <= HistoryLimit && |history| <= |published| && history == published[|published| - |history|..]
  }

  /** The subscriptions to events of type `t` in the per-type dictionary (none when it has no entry). */
  function ListOf(typed: seq<(EventType, seq<Subscription>)>, t: EventType): (r: seq<Subscription>)
    ensures EntryOf(typed, t) == -1 ==> r == []
    ensures EntryOf(typed, t) >= 0 ==> r == typed[EntryOf(typed, t)].1
  {
    var e := EntryOf(typed, t);
    if e == -1 then [] else typed[e].1
  }

  /** The per-type dictionary after a subscription to `t`: its list gains `sub`, or a new entry is appended. */
  function Added(typed: seq<(EventType, seq<Subscription>)>, t: EventType, sub: Subscription): (r: seq<(EventType, seq<Subscription>)>)
    requires forall e :: 0 <= e < |typed| ==> SortedDesc(typed[e].1)
    ensures |r| == |typed| || r == typed + [(t, [sub])]
  {
    var e := EntryOf(typed, t);
    if e == -1 then typed + [(t, [sub])] else typed[e := (t, InsertDesc(typed[e].1, sub))]
  }

  /**
   * Subscribing to `t` adds the subscription to `t`'s list in priority order, leaves every other
   * type's list alone, and keeps one sorted list per known type.
   */
  lemma AddedFacts(typed: seq<(EventType, seq<Subscription>)>, t: EventType, sub: Subscription, eventTypes: set<EventType>)
    requires ListsOk(typed, eventTypes) && t in eventTypes
    ensures ListsOk(Added(typed, t, sub), eventTypes)
    ensures ListOf(Added(typed, t, sub), t) == InsertDesc(ListOf(typed, t), sub)
    ensures forall u :: u != t ==> ListOf(Added(typed, t, sub), u) == ListOf(typed, u)
  {
    AddedKeepsLists(typed, t, sub, eventTypes);
    AddedOwnList(typed, t, sub);
    forall u | u != t ensures ListOf(Added(typed, t, sub), u) == ListOf(typed, u) {
      AddedOtherList(typed, t, sub, u);
    }
  }

  lemma AddedKeepsLists(typed: seq<(EventType, seq<Subscription>)>, t: EventType, sub: Subscription, eventTypes: set<EventType>)
    requires ListsOk(typed, eventTypes) && t in eventTypes
    ensures ListsOk(Added(typed, t, sub), eventTypes)
  {
    var e := EntryOf(typed, t);
    var r := Added(typed, t, sub);
    assert forall f :: 0 <= f < |typed| ==> r[f].0 == typed[f].0;
  }

  lemma AddedOwnList(typed: seq<(EventType, seq<Subscription>)>, t: EventType, sub: Subscription)
    requires forall e :: 0 <= e < |typed| ==> SortedDesc(typed[e].1)
    ensures ListOf(Added(typed, t, sub), t) == InsertDesc(ListOf(typed, t), sub)
  {
    var e := EntryOf(typed, t);
    var r := Added(typed, t, sub);
    if e == -1 {
      assert r[|r| - 1].0 == t;
      assert EntryOf(r, t) == |typed|;
      assert InsertDesc([], sub) == [sub];
    } else {
      EntryOfUpdate(typed, e, (t, InsertDesc(typed[e].1, sub)), t);
    }
  }

  lemma AddedOtherList(typed: seq<(EventType, seq<Subscription>)>, t: EventType, sub: Subscription, u: EventType)
    requires forall e :: 0 <= e < |typed| ==> SortedDesc(typed[e].1)
    requires u != t
    ensures ListOf(Added(typed, t, sub), u) == ListOf(typed, u)
  {
    var e := EntryOf(typed, t);
    if e == -1 {
      EntryOfAppend(typed, (t, [sub]), u);
    } else {
      EntryOfUpdate(typed, e, (t, InsertDesc(typed[e].1, sub)), u);
    }
  }

  /** Removing one subscription from a per-type list keeps one sorted list per known type. */
  lemma RemovedFacts(typed: seq<(EventType, seq<Subscription>)>, e: nat, k: nat, eventTypes: set<EventType>)
    requires ListsOk(typed, eventTypes) && e < |typed| && k < |typed[e].1|
    ensures ListsOk(typed[e := (typed[e].0, RemoveAt(typed[e].1, k))], eventTypes)
  {
    var r := typed[e := (typed[e].0, RemoveAt(typed[e].1, k))];
    assert forall f :: 0 <= f < |r| ==> r[f].0 == typed[f].0;
  }

  class EventBus {
    /** The names of the `GameEventType` members. */
    const eventTypes: set<EventType>
    /** `_subscribers`: one list per event type, in the order the types were first subscribed to. */
    var typed: seq<(EventType, seq<Subscription>)>
    /** `_global_subscribers`: the subscriptions to every event. */
    var globals: seq<Subscription>
    /** `_event_history`. */
    var history: seq<Event>
    /** Every event ever published, oldest first. */
    ghost var published: seq<Event>
    var eventsPublished: nat
    var eventsHandled: nat
    var failedHandlers: nat

    /**
     * Every list is in descending priority order and each type has one list; the history is
     * bounded and holds the newest events published, in order; the published counter counts them.
     */
    ghost predicate Valid()
      reads this
    {
      ListsOk(typed, eventTypes) && SortedDesc(globals)
      && HistoryOk(history, published) && eventsPublished == |published|
    }

    constructor (types: set<EventType>)
      ensures Valid()
      ensures eventTypes == types
      ensures typed == [] && globals == [] && history == [] && published == []
      ensures eventsPublished == 0 && eventsHandled == 0 && failedHandlers == 0
    {
      eventTypes := types;
      typed := [];
      globals := [];
      history := [];
      published := [];
      eventsPublished := 0;
      eventsHandled := 0;
      failedHandlers := 0;
      new;
      assert ListsOk(typed, eventTypes);
      assert SortedDesc(globals);
      assert HistoryOk(history, published);
    }

    /**
     * `subscribe`: '*' adds a global subscription; any other string must name an event type
     * (after upper-casing) or the call raises ValueError and nothing changes; an enum member is
     * taken as it is. The new subscription joins its list in descending priority order, after
     * those of equal priority, and its id is returned.
     */
    method Subscribe(target: Target, priority: int, hasFilter: bool, freshId: string)
      returns (r: Result<string, string>)
      requires Valid()
      requires target.OfType? ==> target.t in eventTypes
      modifies this
      ensures Valid()
      ensures r.Err? <==> target.Named? && target.name != "*" && Upper(target.name) !in eventTypes
      ensures r.Err? ==> r.error == "ValueError" && typed == old(typed) && globals == old(globals)
      ensures r.Ok? ==> r.value == freshId
      ensures target == Named("*") ==>
        globals == InsertDesc(old(globals), Subscription(freshId, priority, hasFilter)) && typed == old(typed)
      ensures r.Ok? && target != Named("*") ==>
        var t := if target.Named? then Upper(target.name) else target.t;
        globals == old(globals)
        && ListOf(typed, t) == InsertDesc(old(ListOf(typed, t)), Subscription(freshId, priority, hasFilter))
        && forall u :: u != t ==> ListOf(typed, u) == old(ListOf(typed, u))
      ensures history == old(history) && published == old(published)
      ensures eventsPublished == old(eventsPublished) && eventsHandled == old(eventsHandled)
      ensures failedHandlers == old(failedHandlers)
    {
      var sub := Subscription(freshId, priority, hasFilter);
      if target == Named("*") {
        AddGlobal(sub);
        return Ok(freshId);
      }
      var t: EventType;
      if target.Named? {
        t := Upper(target.name);
        if t !in eventTypes {
          return Err("ValueError");
        }
      } else {
        t := target.t;
      }
      AddTyped(t, sub);
      return Ok(freshId);
    }

    /** The '*' branch of `subscribe`. */
    method AddGlobal(sub: Subscription)
      requires Valid()
      modifies this
      ensures Valid()
      ensures globals == InsertDesc(old(globals), sub)
      ensures typed == old(typed) && history == old(history) && published == old(published)
      ensures eventsPublished == old(eventsPublished) && eventsHandled == old(eventsHandled)
      ensures failedHandlers == old(failedHandlers)
    {
      globals := InsertDesc(globals, sub);
    }

    /** The per-type branch of `subscribe`. */
    method AddTyped(t: EventType, sub: Subscription)
      requires Valid() && t in eventTypes
      modifies this
      ensures Valid()
      ensures ListOf(typed, t) == InsertDesc(old(ListOf(typed, t)), sub)
      ensures forall u :: u != t ==> ListOf(typed, u) == old(ListOf(typed, u))
      ensures globals == old(globals) && history == old(history) && published == old(published)
      ensures eventsPublished == old(eventsPublished) && eventsHandled == old(eventsHandled)
      ensures failedHandlers == old(failedHandlers)
    {
      AddedFacts(typed, t, sub, eventTypes);
      typed := Added(typed, t, sub);
    }

    /**
     * `unsubscribe`: removes the first subscription with the id (per-type lists first, in
     * dictionary order, then the global list) and reports whether there was one.
     */
    method Unsubscribe(id: string) returns (found: bool)
      requires Valid()
      modifies this
      ensures Valid()
      ensures found <==> !Locate(old(typed), old(globals), id, 0).Nowhere?
      ensures match Locate(old(typed), old(globals), id, 0)
        case InTyped(e, k) =>
          typed == old(typed)[e := (old(typed)[e].0, RemoveAt(old(typed)[e].1, k))] && globals == old(globals)
        case InGlobals(k) => globals == RemoveAt(old(globals), k) && typed == old(typed)
        case Nowhere => typed == old(typed) && globals == old(globals)
      ensures history == old(history) && published == old(published)
      ensures eventsPublished == old(eventsPublished) && eventsHandled == old(eventsHandled)
      ensures failedHandlers == old(failedHandlers)
    {
      var loc := Search(typed, globals, id);
      match loc {
        case InTyped(e, k) =>
          RemovedFacts(typed, e, k, eventTypes);
          typed := typed[e := (typed[e].0, RemoveAt(typed[e].1, k))];
          return true;
        case InGlobals(k) =>
          globals := RemoveAt(globals, k);
          return true;
        case Nowhere =>
          return false;
      }
    }

    /**
     * `publish`: appends the event to the history (cut back to the newest 500 once past 1000)
     * and counts it; then calls, in order, the subscriptions to its type and the global ones
     * whose filter takes it. Each call that returns counts as handled, each that raises as failed.
     */
    method Publish(event: Event, outcome: Subscription -> FilterOutcome, raises: Subscription -> bool)
      returns (called: seq<Subscription>)
      requires Valid()
      modifies this
      ensures Valid()
      ensures published == old(published) + [event]
      ensures history == Truncated(old(history) + [event])
      ensures eventsPublished == old(eventsPublished) + 1
      ensures called == Handled(old(ListOf(typed, event.eventType)), outcome) + Handled(old(globals), outcome)
      ensures failedHandlers == old(failedHandlers) + CountIf(called, raises)
      ensures eventsHandled == old(eventsHandled) + (|called| - CountIf(called, raises))
      ensures typed == old(typed) && globals == old(globals)
    {
      Record(event);
      var typedCalls := Handlers(ListOf(typed, event.eventType), outcome);
      var globalCalls := Handlers(globals, outcome);
      called := typedCalls + globalCalls;
      var failed := CountRaising(called, raises);
      failedHandlers := failedHandlers + failed;
      eventsHandled := eventsHandled + (|called| - failed);
    }

    /** The bookkeeping half of `publish`: the event joins the (bounded) history and is counted. */
    method Record(event: Event)
      requires Valid()
      modifies this
      ensures Valid()
      ensures published == old(published) + [event]
      ensures history == Truncated(old(history) + [event])
      ensures eventsPublished == old(eventsPublished) + 1
      ensures typed == old(typed) && globals == old(globals)
      ensures eventsHandled == old(eventsHandled) && failedHandlers == old(failedHandlers)
    {
      PublishedSuffix(history, published, event);
      history, published := Truncated(history + [event]), published + [event];
      eventsPublished := eventsPublished + 1;
    }

    /** `get_event_history`: the events of the given type (or all), then the newest `limit` of them. */
    function GetEventHistory(t: Option<EventType>, limit: Option<int>): (r: seq<Event>)
      reads this
      ensures r == Newest(OfTypeOnly(history, t), limit)
    {
      Newest(OfTypeOnly(history, t), limit)
    }

    /** `clear_history`: the history empties; the counters stay. */
    method ClearHistory()
      requires Valid()
      modifies this
      ensures Valid()
      ensures history == []
      ensures typed == old(typed) && globals == old(globals) && published == old(published)
      ensures eventsPublished == old(eventsPublished) && eventsHandled == old(eventsHandled)
      ensures failedHandlers == old(failedHandlers)
    {
      history := [];
    }
  }

  /** The search loops of `unsubscribe`: each per-type list in turn, then the global list. */
  method Search(typed: seq<(EventType, seq<Subscription>)>, globals: seq<Subscription>, id: string)
    returns (loc: Location)
    ensures loc == Locate(typed, globals, id, 0)
  {
    var e := 0;
    while e < |typed|
      invariant 0 <= e <= |typed|
      invariant Locate(typed, globals, id, 0) == Locate(typed, globals, id, e)
    {
      var k := FindIndex(typed[e].1, id);
      if k >= 0 {
        return InTyped(e, k);
      }
      e := e + 1;
    }
    var k := FindIndex(globals, id);
    if k >= 0 {
      return InGlobals(k);
    }
    return Nowhere;
  }

  /** The `enumerate` loop of `unsubscribe` over one list. */
  method FindIndex(s: seq<Subscription>, id: string) returns (k: int)
    ensures k == IndexOf(s, id)
  {
    k := 0;
    while k < |s|
      invariant 0 <= k <= |s|
      invariant forall j :: 0 <= j < k ==> s[j].id != id
    {
      if s[k].id == id {
        IndexOfFirst(s, id, k);
        return k;
      }
      k := k + 1;
    }
    return -1;
  }

  lemma {:induction false} IndexOfFirst(s: seq<Subscription>, id: string, k: nat)
    requires k < |s| && s[k].id == id
    requires forall j :: 0 <= j < k ==> s[j].id != id
    ensures IndexOf(s, id) == k
  {
    var r := IndexOf(s, id);
    assert r != -1;
  }

  /** The subscriptions of `s` whose filter takes the event, in list order. */
  function Handled(s: seq<Subscription>, outcome: Subscription -> FilterOutcome): (r: seq<Subscription>)
    ensures |r| <= |s|
  {
    if s == [] then []
    else
      var last := s[|s| - 1];
      Handled(s[..|s| - 1], outcome) + (if ShouldHandle(last, outcome(last)) then [last] else [])
  }

  /** Exactly the subscriptions of `s` whose filter takes the event are called. */
  lemma {:induction false} HandledMembers(s: seq<Subscription>, outcome: Subscription -> FilterOutcome)
    ensures forall x :: x in Handled(s, outcome) <==> x in s && ShouldHandle(x, outcome(x))
  {
    if s != [] {
      HandledMembers(s[..|s| - 1], outcome);
      assert s == s[..|s| - 1] + [s[|s| - 1]];
    }
  }

  /** The calling loop of `publish` over one list. */
  method Handlers(s: seq<Subscription>, outcome: Subscription -> FilterOutcome) returns (r: seq<Subscription>)
    ensures r == Handled(s, outcome)
  {
    r := [];
    var i := 0;
    while i < |s|
      invariant 0 <= i <= |s|
      invariant r == Handled(s[..i], outcome)
    {
      assert s[..i + 1][..i] == s[..i];
      if ShouldHandle(s[i], outcome(s[i])) {
        r := r + [s[i]];
      }
      i := i + 1;
    }
    assert s[..i] == s;
  }

  /** How many of the called handlers raise. */
  method CountRaising(called: seq<Subscription>, raises: Subscription -> bool) returns (n: nat)
    ensures n == CountIf(called, raises)
    ensures n <= |called|
  {
    n := 0;
    var i := 0;
    while i < |called|
      invariant 0 <= i <= |called|
      invariant n == CountIf(called[..i], raises) && n <= i
    {
      assert called[..i + 1][..i] == called[..i];
      if raises(called[i]) {
        n := n + 1;
      }
      i := i + 1;
    }
    assert called[..i] == called;
  }

  /** Publishing keeps the history the newest part of what was published. */
  lemma PublishedSuffix(h: seq<Event>, p: seq<Event>, event: Event)
    requires HistoryOk(h, p)
    ensures HistoryOk(Truncated(h + [event]), p + [event])
  {
    var p' := p + [event];
    assert h + [event] == p'[|p'| - |h| - 1..];
  }

  lemma {:induction false} EntryOfAppend(typed: seq<(EventType, seq<Subscription>)>, x: (EventType, seq<Subscription>), u: EventType)
    requires u != x.0
    ensures EntryOf(typed + [x], u) == EntryOf(typed, u)
    decreases |typed|
  {
    if typed != [] {
      assert (typed + [x])[1..] == typed[1..] + [x];
      EntryOfAppend(typed[1..], x, u);
    }
  }

  lemma {:induction false} EntryOfUpdate(typed: seq<(EventType, seq<Subscription>)>, e: nat, x: (EventType, seq<Subscription>), u: EventType)
    requires e < |typed| && x.0 == typed[e].0
    ensures EntryOf(typed[e := x], u) == EntryOf(typed, u)
    decreases |typed|
  {
    if typed != [] && e > 0 {
      assert typed[e := x][1..] == typed[1..][e - 1 := x];
      EntryOfUpdate(typed[1..], e - 1, x, u);
    }
  }
}
