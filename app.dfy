/**
 * The application shell of src/app.component.ts: which view is shown, and the
 * state of the creator form (hidden, creating, or editing a trip).
 */
module App {
  import opened TripModel
  import opened TripStore
  import FeedView
  import MapView

  /** The two tabs. */
  datatype View = MapTab | FeedTab

  datatype CreatorMode = Hidden | Create | Edit

  /** The creator's state: its mode and, when editing, the trip being edited. */
  datatype CreatorState = CreatorState(mode: CreatorMode, trip: Option<Trip>)

  class AppComponent {
    const service: TripService
    var activeView: View
    var creatorState: CreatorState

    /** The app starts on the feed with the creator hidden. */
    constructor (service: TripService)
      ensures this.service == service
      ensures activeView == FeedTab && creatorState == CreatorState(Hidden, None)
    {
      this.service := service;
      activeView := FeedTab;
      creatorState := CreatorState(Hidden, None);
    }

    /** Shows `view`; the creator is left as it is. */
    method OnViewChange(view: View)
      modifies this`activeView
      ensures activeView == view
    {
      activeView := view;
    }

    /** A trip picked on the map: record it in the store and switch to the feed. */
    method OnTripSelectedFromMap(tripId: string)
      modifies this`activeView, service
      ensures service.State() == old(service.State()).(mapSelectedTripId := Some(tripId))
      ensures activeView == FeedTab
    {
      service.SelectTripFromMap(Some(tripId));
      OnViewChange(FeedTab);
    }

    /** Opens the creator for a new trip. */
    method OnShowCreator()
      modifies this`creatorState
      ensures creatorState == CreatorState(Create, None)
    {
      creatorState := CreatorState(Create, None);
    }

    /** Hides the creator, whatever its mode was. */
    method OnCloseCreator()
      modifies this`creatorState
      ensures creatorState == CreatorState(Hidden, None)
    {
      creatorState := CreatorState(Hidden, None);
    }

    /** Opens the creator on `trip`. */
    method OnEditTrip(trip: Trip)
      modifies this`creatorState
      ensures creatorState == CreatorState(Edit, Some(trip))
    {
      creatorState := CreatorState(Edit, Some(trip));
    }
  }

  /**
   * A click on a map pin carried through the app to the feed: the map emits
   * the pin's trip id, the app records it and shows the feed, and the feed's
   * reaction resets the sort and opens the first trip with that id, which is
   * in the store's list. The list itself is not touched.
   */
  method PinClickOpensTrip(app: AppComponent, mapView: MapView.MapViewComponent,
                           feed: FeedView.FeedViewComponent, index: nat)
    requires mapView.service == app.service && feed.service == app.service
    requires mapView.markers == MapView.MarkersFor(mapView.Filtered())
    requires index < |mapView.markers|
    requires mapView.markers[index].tripId != ""
    modifies app, app.service, mapView, feed
    ensures var picked := old(mapView.Filtered())[index];
            && app.activeView == FeedTab
            && feed.sortState == FeedView.Unsorted
            && feed.selectedTrip == Find(app.service.trips, picked.id)
            && feed.selectedTrip.Some? && feed.selectedTrip.value.id == picked.id
    ensures app.service.trips == old(app.service.trips)
  {
    ghost var picked := mapView.Filtered()[index];
    assert picked in app.service.trips;
    ghost var k :| 0 <= k < |app.service.trips| && app.service.trips[k] == picked;
    assert HasId(app.service.trips, picked.id);
    mapView.ClickMarker(index);
    var tripId := mapView.tripSelected[|mapView.tripSelected| - 1];
    app.OnTripSelectedFromMap(tripId);
    feed.OnMapSelection();
  }
}
