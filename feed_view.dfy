/**
 * The feed of src/components/feed-view/feed-view.component.ts: the budget sort
 * of the trip list, the sort toggle, the selected trip, and the reaction to a
 * trip picked on the map.
 */
module FeedView {
  import opened TripModel
  import opened TripStore

  /** The feed's sort order: none, ascending or descending budget. */
  datatype SortState = Unsorted | Ascending | Descending

  /** The toggle cycle: none, then ascending, then descending, then none again. */
  function NextSortState(s: SortState): (r: SortState)
    ensures r != s
  {
    match s
    case Unsorted => Ascending
    case Ascending => Descending
    case Descending => Unsorted
  }

  /** Three toggles bring the sort order back to where it was. */
  lemma ToggleCycle(s: SortState)
    ensures NextSortState(NextSortState(NextSortState(s))) == s
    ensures NextSortState(s) != s && NextSortState(NextSortState(s)) != s
    ensures NextSortState(Unsorted) == Ascending && NextSortState(Ascending) == Descending
            && NextSortState(Descending) == Unsorted
  {
  }

  /**
   * The feed's comparator: `budgetA - budgetB` ascending, `budgetB - budgetA`
   * descending, over the budget ranks.
   */
  function Compare(dir: SortState, a: Trip, b: Trip): (r: int)
    ensures r == 0 <==> a.presupuesto == b.presupuesto
    ensures dir == Ascending ==> (r < 0 <==> BudgetRank(a.presupuesto) < BudgetRank(b.presupuesto))
    ensures dir != Ascending ==> (r < 0 <==> BudgetRank(a.presupuesto) > BudgetRank(b.presupuesto))
  {
    BudgetRankOrdersTiers(a.presupuesto, b.presupuesto);
    if dir == Ascending then BudgetRank(a.presupuesto) - BudgetRank(b.presupuesto)
    else BudgetRank(b.presupuesto) - BudgetRank(a.presupuesto)
  }

  /** `trips` is ordered by the comparator: no pair is out of order. */
  predicate SortedBy(dir: SortState, trips: seq<Trip>)
  {
    forall i, j :: 0 <= i < j < |trips| ==> Compare(dir, trips[i], trips[j]) <= 0
  }

  /**
   * Inserts `t` into an ordered list in front of the first element it does not
   * come after, so that it stays ahead of every element of its own tier.
   */
  function Insert(dir: SortState, t: Trip, sorted: seq<Trip>): (r: seq<Trip>)
    ensures |r| == |sorted| + 1
  {
    if |sorted| == 0 then [t]
    else if Compare(dir, t, sorted[0]) <= 0 then [t] + sorted
    else [sorted[0]] + Insert(dir, t, sorted[1..])
  }

  /** Insertion sort by the comparator. */
  function SortBy(dir: SortState, trips: seq<Trip>): (r: seq<Trip>)
    ensures |r| == |trips|
  {
    if |trips| == 0 then [] else Insert(dir, trips[0], SortBy(dir, trips[1..]))
  }

  lemma {:induction false} InsertPermutes(dir: SortState, t: Trip, sorted: seq<Trip>)
    ensures multiset(Insert(dir, t, sorted)) == multiset(sorted) + multiset{t}
  {
    if |sorted| > 0 && Compare(dir, t, sorted[0]) > 0 {
      InsertPermutes(dir, t, sorted[1..]);
      assert sorted == [sorted[0]] + sorted[1..];
    }
  }

  /** Putting an element that comes before every element of an ordered list in front keeps it ordered. */
  lemma ConsSorted(dir: SortState, h: Trip, rest: seq<Trip>)
    requires SortedBy(dir, rest)
    requires forall j :: 0 <= j < |rest| ==> Compare(dir, h, rest[j]) <= 0
    ensures SortedBy(dir, [h] + rest)
  {
    var r := [h] + rest;
    forall i, j | 0 <= i < j < |r| ensures Compare(dir, r[i], r[j]) <= 0 {
      if i == 0 {
        assert r[j] == rest[j - 1];
      } else {
        assert r[i] == rest[i - 1] && r[j] == rest[j - 1];
      }
    }
  }

  /** The head of an ordered list that `t` goes after comes before `t` and before its own tail. */
  lemma HeadPrecedes(dir: SortState, t: Trip, sorted: seq<Trip>, x: Trip)
    requires dir != Unsorted && SortedBy(dir, sorted)
    requires |sorted| > 0 && Compare(dir, t, sorted[0]) > 0
    requires x in multiset(sorted[1..]) + multiset{t}
    ensures Compare(dir, sorted[0], x) <= 0
  {
    if x != t {
      assert x in sorted[1..];
      var k :| 0 <= k < |sorted[1..]| && sorted[1..][k] == x;
      assert sorted[k + 1] == x;
    }
  }

  lemma {:induction false} InsertKeepsOrder(dir: SortState, t: Trip, sorted: seq<Trip>)
    requires dir != Unsorted
    requires SortedBy(dir, sorted)
    ensures SortedBy(dir, Insert(dir, t, sorted))
  {
    if |sorted| > 0 && Compare(dir, t, sorted[0]) > 0 {
      var rest := Insert(dir, t, sorted[1..]);
      assert SortedBy(dir, sorted[1..]);
      InsertKeepsOrder(dir, t, sorted[1..]);
      InsertPermutes(dir, t, sorted[1..]);
      forall j | 0 <= j < |rest| ensures Compare(dir, sorted[0], rest[j]) <= 0 {
        assert rest[j] in multiset(rest);
        HeadPrecedes(dir, t, sorted, rest[j]);
      }
      ConsSorted(dir, sorted[0], rest);
    }
  }

  /**
   * Stability of one insertion: `t` lands ahead of every element of its tier,
   * and the other tiers keep their order.
   */
  lemma {:induction false} InsertStable(dir: SortState, t: Trip, sorted: seq<Trip>, tier: Budget)
    requires dir != Unsorted
    ensures OfTier(Insert(dir, t, sorted), tier)
         == if t.presupuesto == tier then [t] + OfTier(sorted, tier) else OfTier(sorted, tier)
  {
    var r := Insert(dir, t, sorted);
    if |sorted| == 0 {
      OfTierCons(r, tier);
    } else if Compare(dir, t, sorted[0]) <= 0 {
      OfTierCons(r, tier);
      assert r[1..] == sorted;
    } else {
      InsertStable(dir, t, sorted[1..], tier);
      OfTierCons(r, tier);
      OfTierCons(sorted, tier);
      assert r[1..] == Insert(dir, t, sorted[1..]);
      assert sorted[0].presupuesto != t.presupuesto;
    }
  }

  lemma {:induction false} SortByPermutes(dir: SortState, trips: seq<Trip>)
    ensures multiset(SortBy(dir, trips)) == multiset(trips)
  {
    if |trips| > 0 {
      SortByPermutes(dir, trips[1..]);
      InsertPermutes(dir, trips[0], SortBy(dir, trips[1..]));
      assert trips == [trips[0]] + trips[1..];
    }
  }

  lemma {:induction false} SortByOrders(dir: SortState, trips: seq<Trip>)
    requires dir != Unsorted
    ensures SortedBy(dir, SortBy(dir, trips))
  {
    if |trips| > 0 {
      SortByOrders(dir, trips[1..]);
      InsertKeepsOrder(dir, trips[0], SortBy(dir, trips[1..]));
    }
  }

  lemma {:induction false} SortByStable(dir: SortState, trips: seq<Trip>, tier: Budget)
    requires dir != Unsorted
    ensures OfTier(SortBy(dir, trips), tier) == OfTier(trips, tier)
  {
    if |trips| > 0 {
      SortByStable(dir, trips[1..], tier);
      InsertStable(dir, trips[0], SortBy(dir, trips[1..]), tier);
      OfTierCons(trips, tier);
    }
  }

  /** Sorting a list that is already in order leaves it as it is. */
  lemma {:induction false} SortByOfSorted(dir: SortState, trips: seq<Trip>)
    requires SortedBy(dir, trips)
    ensures SortBy(dir, trips) == trips
  {
    if |trips| > 0 {
      assert SortedBy(dir, trips[1..]);
      SortByOfSorted(dir, trips[1..]);
      if |trips| > 1 {
        assert Compare(dir, trips[0], trips[1]) <= 0;
      }
    }
  }

  /**
   * `sortedTrips`: the list itself when unsorted; otherwise a sorted copy that
   * is a permutation of the list, ordered by budget rank in the chosen
   * direction, and stable: each tier keeps the order it had.
   */
  function SortTrips(state: SortState, trips: seq<Trip>): (r: seq<Trip>)
    ensures state == Unsorted ==> r == trips
    ensures multiset(r) == multiset(trips)
    ensures state == Ascending ==>
      forall i, j :: 0 <= i < j < |r| ==> BudgetRank(r[i].presupuesto) <= BudgetRank(r[j].presupuesto)
    ensures state == Descending ==>
      forall i, j :: 0 <= i < j < |r| ==> BudgetRank(r[i].presupuesto) >= BudgetRank(r[j].presupuesto)
    ensures forall tier :: OfTier(r, tier) == OfTier(trips, tier)
  {
    if state == Unsorted then trips
    else
      SortByPermutes(state, trips);
      SortByOrders(state, trips);
      forall tier ensures OfTier(SortBy(state, trips), tier) == OfTier(trips, tier) {
        SortByStable(state, trips, tier);
      }
      SortBy(state, trips)
  }

  /** Sorting twice in the same direction is the same as sorting once. */
  lemma SortTripsIdempotent(state: SortState, trips: seq<Trip>)
    ensures SortTrips(state, SortTrips(state, trips)) == SortTrips(state, trips)
  {
    if state != Unsorted {
      SortByOrders(state, trips);
      SortByOfSorted(state, SortBy(state, trips));
    }
  }
  /** Lists that agree on every tier's subsequence hold the same trips. */
  lemma SameTiersSameMultiset(a: seq<Trip>, b: seq<Trip>)
    requires forall tier :: OfTier(a, tier) == OfTier(b, tier)
    ensures multiset(a) == multiset(b)
  {
    forall t ensures multiset(a)[t] == multiset(b)[t] {
      assert multiset(OfTier(a, t.presupuesto))[t] == multiset(OfTier(b, t.presupuesto))[t];
    }
  }

  /** One step of the tier filter. */
  lemma OfTierCons(s: seq<Trip>, tier: Budget)
    requires |s| > 0
    ensures OfTier(s, tier) == if s[0].presupuesto == tier then [s[0]] + OfTier(s[1..], tier)
                               else OfTier(s[1..], tier)
  {
  }

  /** Two ordered lists holding the same trips start with the same tier. */
  lemma HeadsShareTier(dir: SortState, a: seq<Trip>, b: seq<Trip>)
    requires dir != Unsorted
    requires SortedBy(dir, a) && SortedBy(dir, b)
    requires multiset(a) == multiset(b) && |a| > 0
    ensures |b| > 0 && a[0].presupuesto == b[0].presupuesto
  {
    assert a[0] in multiset(b);
    var k :| 0 <= k < |b| && b[k] == a[0];
    assert b[0] in multiset(a);
    var m :| 0 <= m < |a| && a[m] == b[0];
    assert Compare(dir, b[0], a[0]) <= 0 && Compare(dir, a[0], b[0]) <= 0;
    BudgetRankOrdersTiers(a[0].presupuesto, b[0].presupuesto);
  }

  /** Dropping equal-tier heads keeps the tier subsequences equal, and the heads are equal. */
  lemma TailsShareTiers(a: seq<Trip>, b: seq<Trip>)
    requires |a| > 0 && |b| > 0 && a[0].presupuesto == b[0].presupuesto
    requires forall tier :: OfTier(a, tier) == OfTier(b, tier)
    ensures a[0] == b[0]
    ensures forall tier :: OfTier(a[1..], tier) == OfTier(b[1..], tier)
  {
    var t := a[0].presupuesto;
    OfTierCons(a, t);
    OfTierCons(b, t);
    assert OfTier(a, t)[0] == a[0] && OfTier(b, t)[0] == b[0];
    forall tier ensures OfTier(a[1..], tier) == OfTier(b[1..], tier) {
      OfTierCons(a, tier);
      OfTierCons(b, tier);
      if tier == t {
        assert OfTier(a[1..], t) == OfTier(a, t)[1..];
        assert OfTier(b[1..], t) == OfTier(b, t)[1..];
      }
    }
  }

  /**
   * A stable sort has only one possible result: two lists that are both in
   * order and agree on every tier's subsequence are the same list.
   */
  lemma {:induction false} StableOrderIsUnique(dir: SortState, a: seq<Trip>, b: seq<Trip>)
    requires dir != Unsorted
    requires SortedBy(dir, a) && SortedBy(dir, b)
    requires forall tier :: OfTier(a, tier) == OfTier(b, tier)
    ensures a == b
    decreases |a|
  {
    SameTiersSameMultiset(a, b);
    assert |a| == |multiset(a)| == |multiset(b)| == |b|;
    if |a| > 0 {
      HeadsShareTier(dir, a, b);
      TailsShareTiers(a, b);
      StableOrderIsUnique(dir, a[1..], b[1..]);
      assert a == [a[0]] + a[1..] && b == [b[0]] + b[1..];
    }
  }

  /**
   * The sorted copy is the one a stable sort must produce (section 23.1.3.30 of
   * ECMA-262, 2023 edition): any list in comparator order that keeps each
   * tier's order is exactly `SortTrips`.
   */
  lemma StableSortAgrees(state: SortState, trips: seq<Trip>, r: seq<Trip>)
    requires state != Unsorted
    requires SortedBy(state, r)
    requires forall tier :: OfTier(r, tier) == OfTier(trips, tier)
    ensures r == SortTrips(state, trips)
  {
    SortByOrders(state, trips);
    StableOrderIsUnique(state, r, SortTrips(state, trips));
  }
  /**
   * The feed component: its sort order and opened trip, over the shared store.
   * The store's `mapSelectedTripId` effect is the method OnMapSelection, to be
   * called after that field changes.
   */
  class FeedViewComponent {
    const service: TripService
    var selectedTrip: Option<Trip>
    var sortState: SortState
    /** The trip whose activity map is open, if any. */
    var showActivityMapForTrip: Option<Trip>
    /** The trips emitted on `editTrip`, oldest first. */
    var editTripEmitted: seq<Trip>

    constructor (service: TripService)
      ensures this.service == service
      ensures selectedTrip == None && sortState == Unsorted
      ensures showActivityMapForTrip == None && editTripEmitted == []
    {
      this.service := service;
      selectedTrip := None;
      sortState := Unsorted;
      showActivityMapForTrip := None;
      editTripEmitted := [];
    }

    /** `sortedTrips`: the list the feed shows, computed from the store's list without changing it. */
    function SortedTrips(): (r: seq<Trip>)
      reads this, service
      ensures sortState == Unsorted ==> r == service.trips
      ensures multiset(r) == multiset(service.trips)
      ensures sortState == Ascending ==>
        forall i, j :: 0 <= i < j < |r| ==> BudgetRank(r[i].presupuesto) <= BudgetRank(r[j].presupuesto)
      ensures sortState == Descending ==>
        forall i, j :: 0 <= i < j < |r| ==> BudgetRank(r[i].presupuesto) >= BudgetRank(r[j].presupuesto)
      ensures forall tier :: OfTier(r, tier) == OfTier(service.trips, tier)
    {
      SortTrips(sortState, service.trips)
    }

    /** Advances the sort order one step of the cycle. */
    method ToggleSort()
      modifies this`sortState
      ensures sortState == NextSortState(old(sortState))
    {
      sortState := NextSortState(sortState);
    }

    /**
     * Opens `trip`, or closes it when it is the open one, and clears the
     * store's map selection. Trips are compared by value.
     */
    method SelectTrip(trip: Trip)
      modifies this`selectedTrip, service
      ensures selectedTrip == if old(selectedTrip) == Some(trip) then None else Some(trip)
      ensures service.State() == old(service.State()).(mapSelectedTripId := None)
    {
      selectedTrip := if selectedTrip == Some(trip) then None else Some(trip);
      service.SelectTripFromMap(None);
    }

    /**
     * The reaction to the store's map selection. A picked id (an empty id is
     * falsy and counts as none) resets the sort and opens the first trip that
     * carries it; when no trip carries it the open trip stays.
     */
    method OnMapSelection()
      modifies this`sortState, this`selectedTrip
      ensures var id := service.mapSelectedTripId;
              if id.Some? && id.value != "" then
                && sortState == Unsorted
                && selectedTrip == if HasId(service.trips, id.value) then Find(service.trips, id.value)
                                   else old(selectedTrip)
              else
                sortState == old(sortState) && selectedTrip == old(selectedTrip)
    {
      var tripId := service.mapSelectedTripId;
      if tripId.Some? && tripId.value != "" {
        sortState := Unsorted;
        var tripToSelect := Find(service.trips, tripId.value);
        if tripToSelect.Some? {
          selectedTrip := tripToSelect;
        }
      }
    }

    /** Opens the activity map of `trip`. */
    method OpenActivityMap(trip: Trip)
      modifies this`showActivityMapForTrip
      ensures showActivityMapForTrip == Some(trip)
    {
      showActivityMapForTrip := Some(trip);
    }

    /** Closes the activity map. */
    method CloseActivityMap()
      modifies this`showActivityMapForTrip
      ensures showActivityMapForTrip == None
    {
      showActivityMapForTrip := None;
    }

    /** Emits `trip` on `editTrip`. */
    method OnEditTrip(trip: Trip)
      modifies this`editTripEmitted
      ensures editTripEmitted == old(editTripEmitted) + [trip]
    {
      editTripEmitted := editTripEmitted + [trip];
    }
  }
}
