/**
 * The map of src/components/map-view/map-view.component.ts: the budget filter,
 * the pin colour per tier, the list of markers kept in step with the filtered
 * trips, the choice of viewport, and the id a pin click emits.
 *
 * The map library's objects are not modelled: a marker is the record of what
 * it was built from, and the map's camera is a value.
 */
module MapView {
  import opened TripModel
  import opened TripStore

  /** The filter choice: every trip, or one budget tier. */
  datatype BudgetFilter = Todos | Only(tier: Budget)

  /** `filteredTrips`: all trips for Todos, otherwise the trips of the chosen tier in list order. */
  function FilteredTrips(filter: BudgetFilter, trips: seq<Trip>): (r: seq<Trip>)
    ensures filter == Todos ==> r == trips
    ensures filter.Only? ==>
              && |r| <= |trips|
              && IsSubsequence(r, trips)
              && (forall t :: t in r <==> t in trips && t.presupuesto == filter.tier)
              && forall t :: multiset(r)[t] == if t.presupuesto == filter.tier then multiset(trips)[t] else 0
  {
    match filter
    case Todos => trips
    case Only(tier) => OfTier(trips, tier)
  }

  /** The pin colour of a tier: green, amber, red. */
  function PinColor(b: Budget): (r: string)
    ensures |r| == 7 && r[0] == '#'
    ensures forall i :: 1 <= i < 7 ==> r[i] in "0123456789ABCDEF"
  {
    match b
    case Bajo => "#10B981"
    case Medio => "#F59E0B"
    case Alto => "#EF4444"
  }

  /** Distinct tiers get distinct pin colours. */
  lemma PinColorsDistinct(a: Budget, b: Budget)
    ensures a != b ==> PinColor(a) != PinColor(b)
  {
  }

  /** A marker: the trip it stands for, where it stands, its title and its pin colour. */
  datatype Marker = Marker(tripId: string, position: LatLng, title: string, background: string)

  /** The map's camera: a centre and zoom, or a fit to bounds with a pixel padding. */
  datatype Camera = Centered(center: LatLng, zoom: int) | FitBounds(points: seq<LatLng>, padding: int)

  /** The camera the map is created with. */
  const InitialCamera := Centered(LatLng(20.0, 0.0), 2)

  function MarkerFor(t: Trip): Marker
  {
    Marker(t.id, t.coordenadas, t.titulo, PinColor(t.presupuesto))
  }

  /** One marker per trip, in the order of the trips. */
  function MarkersFor(trips: seq<Trip>): (r: seq<Marker>)
    ensures |r| == |trips|
    ensures forall i :: 0 <= i < |trips| ==>
              r[i].tripId == trips[i].id && r[i].position == trips[i].coordenadas
              && r[i].background == PinColor(trips[i].presupuesto)
  {
    seq(|trips|, i requires 0 <= i < |trips| => MarkerFor(trips[i]))
  }

  /** The points the bounds are extended with, one per trip. */
  function Positions(trips: seq<Trip>): seq<LatLng>
  {
    seq(|trips|, i requires 0 <= i < |trips| => trips[i].coordenadas)
  }

  /**
   * The viewport after the markers are placed: no change for no trips, the
   * trip's place at zoom 12 for one, the bounds of all of them with 100 pixels
   * of padding for more.
   */
  function Viewport(trips: seq<Trip>, current: Camera): (r: Camera)
    ensures |trips| == 0 ==> r == current
    ensures |trips| == 1 ==> r == Centered(trips[0].coordenadas, 12)
    ensures |trips| > 1 ==> r.FitBounds? && r.padding == 100 && |r.points| == |trips|
                            && forall i :: 0 <= i < |trips| ==> r.points[i] == trips[i].coordenadas
  {
    if |trips| > 1 then FitBounds(Positions(trips), 100)
    else if |trips| == 1 then Centered(trips[0].coordenadas, 12)
    else current
  }

  /** The map component over the shared store. */
  class MapViewComponent {
    const service: TripService
    var budgetFilter: BudgetFilter
    var markers: seq<Marker>
    /** Whether the map object exists yet. */
    var mapReady: bool
    var camera: Camera
    /** The ids emitted on `tripSelected`, oldest first. */
    var tripSelected: seq<string>

    constructor (service: TripService)
      ensures this.service == service
      ensures budgetFilter == Todos && markers == [] && !mapReady && tripSelected == []
    {
      this.service := service;
      budgetFilter := Todos;
      markers := [];
      mapReady := false;
      camera := InitialCamera;
      tripSelected := [];
    }

    /** The trips the map shows under the current filter. */
    function Filtered(): (r: seq<Trip>)
      reads this, service
      ensures budgetFilter == Todos ==> r == service.trips
      ensures budgetFilter.Only? ==> r == OfTier(service.trips, budgetFilter.tier)
    {
      FilteredTrips(budgetFilter, service.trips)
    }

    /** Chooses the filter; nothing else changes. */
    method SetBudgetFilter(filter: BudgetFilter)
      modifies this`budgetFilter
      ensures budgetFilter == filter
    {
      budgetFilter := filter;
    }

    /** Takes every marker off the map. */
    method ClearMarkers()
      modifies this`markers
      ensures markers == []
    {
      markers := [];
    }

    /** Replaces the markers by one per trip of `trips` and moves the viewport to them. */
    method UpdateMarkers(trips: seq<Trip>)
      modifies this`markers, this`camera
      ensures markers == MarkersFor(trips)
      ensures camera == if mapReady then Viewport(trips, old(camera)) else old(camera)
    {
      ClearMarkers();
      if |trips| == 0 {
        return;
      }
      var bounds: seq<LatLng> := [];
      for i := 0 to |trips|
        invariant markers == MarkersFor(trips[..i])
        invariant bounds == Positions(trips[..i])
        invariant camera == old(camera)
      {
        markers := markers + [MarkerFor(trips[i])];
        bounds := bounds + [trips[i].coordenadas];
      }
      assert trips[..|trips|] == trips;
      if mapReady {
        if |trips| > 1 {
          camera := FitBounds(bounds, 100);
        } else if |trips| == 1 {
          camera := Centered(trips[0].coordenadas, 12);
        }
      }
    }

    /** Creates the map at its initial camera and places the first markers. */
    method InitMap()
      modifies this`mapReady, this`markers, this`camera
      ensures mapReady
      ensures markers == MarkersFor(Filtered())
      ensures camera == Viewport(Filtered(), InitialCamera)
    {
      mapReady := true;
      camera := InitialCamera;
      UpdateMarkers(Filtered());
    }

    /** The reaction to a change of the filtered trips: redraw once the map exists. */
    method OnFilteredTripsChange()
      modifies this`markers, this`camera
      ensures mapReady ==> markers == MarkersFor(Filtered()) && camera == Viewport(Filtered(), old(camera))
      ensures !mapReady ==> markers == old(markers) && camera == old(camera)
    {
      if mapReady {
        UpdateMarkers(Filtered());
      }
    }

    /** Emits `tripId` on `tripSelected`. */
    method OnPinClick(tripId: string)
      modifies this`tripSelected
      ensures tripSelected == old(tripSelected) + [tripId]
    {
      tripSelected := tripSelected + [tripId];
    }

    /** A click on the marker at `index`: its listener emits the id of the trip it was built for. */
    method ClickMarker(index: nat)
      requires index < |markers|
      modifies this`tripSelected
      ensures tripSelected == old(tripSelected) + [markers[index].tripId]
    {
      OnPinClick(markers[index].tripId);
    }
  }
}
