# Travelai trip planner: a Dafny model of its state and list logic

Travelai is a browser app. The user asks a generative-AI backend for a trip
itinerary (a place, a number of days and a budget tier Bajo, Medio or Alto).
The app stores the result in a trip list and shows that list in two ways: as a
feed of cards that can be sorted by budget, and as pins on a map that can be
filtered by budget. This project models the layer of state and list logic
inside the app and proves its contracts:

- the trip store (`TripService`): its fields, `createTrip`, `updateTrip` and
  `selectTripFromMap`;
- the feed (`FeedViewComponent`): the stable budget sort, the sort toggle,
  selection, and the reaction to a trip picked on the map;
- the map (`MapViewComponent`): the budget filter, pin colours, the marker
  list and the viewport choice;
- the creator form (`TripCreatorComponent`): validity, the pre-fill in edit
  mode, and the submit rule;
- the app shell (`AppComponent`): the active view and the creator's state.

One module per source file: `TripModel` (trip.model.ts and the shared list
queries), `TripStore`, `FeedView`, `MapView`, `TripCreator`, `App`.

The two generators are parameters: `gen(location, days, budget)` yields the
itinerary data or an error message, and `imageGen(prompt)` yields base64 bytes
or an error. The two `crypto.randomUUID()` values a request draws are also
parameters: `freshId` is the new trip's id and `fallbackSeed` seeds the
placeholder image. With these, each request is a deterministic transition. The
pure functions `Created` and `Updated` give the store state after a request
settles, and the class methods are proved to reach exactly that state. The
Angular signals are plain fields. Each `computed` becomes a function. Each
`effect` becomes a method that states what one run of the effect does; when
Angular runs it is not modelled (see "## Left out").
Emitted outputs (`close`, `tripSelected`, `editTrip`) are recorded as a count
or a log of the values emitted.

The stable sort is specified this way: for every budget tier, the trips of that
tier appear in the same order in the result as in the input.
`FeedView.StableOrderIsUnique` shows that at most one list is both in
comparator order and stable in this sense. So `SortTrips` is exactly the result
that section 23.1.3.30 of ECMA-262 requires of `Array.prototype.sort`.

The placeholder image is seeded by a fresh UUID, so it differs from one
request to the next. The map-selection reaction ignores an empty id, because
the empty string is falsy in JavaScript.

The TripModel datatypes follow src/models/trip.model.ts: `Restaurante` (lines
2-6, the optional `mapa_url` as an `Option`), `Activity` (8-15), `Trip` (17-30,
the budget union as the datatype `Budget`, the coordinate object as `LatLng`)
and `DayPlan` (32-37, the optional `restaurantes` as an `Option`).

## Model

| member | source | states |
|---|---|---|
| TripModel.BudgetRank | src/components/feed-view/feed-view.component.ts:30 | the sort rank of a tier lies in 1..3 |
| TripModel.BudgetRankOrdersTiers | src/components/feed-view/feed-view.component.ts:30 | Bajo < Medio < Alto in rank, and equal ranks mean the same tier |
| TripModel.FindIndex | src/services/trip.service.ts:88 | `findIndex` by id: -1 exactly when no trip has the id; otherwise an index holding the id with no earlier match |
| TripModel.Find | src/components/feed-view/feed-view.component.ts:47 | `find` by id: None exactly when no trip has the id; otherwise the trip at the first index holding it |
| TripModel.FirstMatchIsFindIndex | src/services/trip.service.ts:88 | any first index carrying the id is the one `findIndex` returns |
| TripModel.OfTier | src/components/map-view/map-view.component.ts:33 | the tier filter: no longer than the input, an order-preserving subsequence of it, holding exactly the input's trips of that tier with their multiplicities |
| TripStore.ErrorMessage | src/services/trip.service.ts:52 | the stored error is the failure's message when that is non-empty and `An unknown error occurred.` when it is empty; never empty |
| TripStore.FallbackImageUrl | src/services/trip.service.ts:27 | the placeholder URL is `https://picsum.photos/seed/`, then the seed, then `/800/600`, so the seed can be read back from it |
| TripStore.ImagePrompt | src/services/trip.service.ts:30 | the image prompt is exactly the fixed Spanish head, the generated title, the fixed middle, the generated place and the fixed Spanish tail, in that order |
| TripStore.ResolveImageUrl | src/services/trip.service.ts:27-35 | on image success the URL is `data:image/jpeg;base64,` followed by the bytes; on failure it is the picsum placeholder for the seed; never empty |
| TripStore.ImageUrlKinds | src/services/trip.service.ts:27-32 | a generated-image URL never equals a placeholder URL |
| TripStore.Assemble | src/services/trip.service.ts:37-47 | the committed trip takes its id, budget, days and image from the request and its title, description, place, coordinates and plan from the generated data |
| TripStore.Prepend | src/services/trip.service.ts:49 | the create update: one longer, the new trip at index 0, the old list in order behind it |
| TripStore.ReplaceById | src/services/trip.service.ts:87-95 | the edit update: same length; the list itself when the id is absent; when present, the new trip sits at the first index holding the id and every other position is unchanged |
| TripStore.CreateSuccessPrepends | src/services/trip.service.ts:37-49 | after a successful create the list is one longer, its tail is the old list, and the head has the fresh id, the caller's budget and days, and the generated title, description, place, coordinates and plan; error cleared, not loading |
| TripStore.GenerationFailureKeepsTrips | src/services/trip.service.ts:51-56 | a failed itinerary request (create or update) leaves the list as it was, stores the message or 'An unknown error occurred.' when it is empty, and ends not loading |
| TripStore.ImageOutcomeIsAbsorbed | src/services/trip.service.ts:27-35 | an image failure still commits the trip with the placeholder and no error; an image success gives it the data URL of the bytes |
| TripStore.UpdateReplacesFirstMatch | src/services/trip.service.ts:75-95 | a successful update replaces the first trip with the id, at that position, by the regenerated trip with the same id; length and all other positions unchanged |
| TripStore.UpdateAbsentIdKeepsTrips | src/services/trip.service.ts:88-94 | an update whose id is absent leaves the list exactly as it was and, if generation succeeded, records no error |
| TripStore.Created | src/services/trip.service.ts:21-57 | the state after `createTrip` settles: not loading, map selection kept; the error is unset exactly when the itinerary was generated; on failure the list is kept, on success it is the old list behind one new trip |
| TripStore.Updated | src/services/trip.service.ts:59-103 | the state after `updateTrip` settles: not loading, map selection kept; the error is unset exactly when the itinerary was generated; the list keeps its length and is unchanged on failure |
| TripStore.CreateKeepsIdsUnique | src/services/trip.service.ts:37-49 | ids stay unique after a create when the fresh id is not already in use |
| TripStore.UpdateKeepsIdsUnique | src/services/trip.service.ts:75-95 | ids stay unique after an update, the edited id is present afterwards exactly when it was before, and its trip carries the new title |
| TripStore.TripService.constructor | src/services/trip.service.ts:7-11 | the store starts with no trips, not loading, no error, no map selection |
| TripStore.TripService.SelectTripFromMap | src/services/trip.service.ts:17-19 | sets only the map selection, to the argument |
| TripStore.TripService.BeginRequest | src/services/trip.service.ts:22-23 | a request starts with loading on and the error cleared, nothing else changed |
| TripStore.TripService.CreateTrip | src/services/trip.service.ts:21-57 | the store's new state is `Created` of the old one, which the lemmas above describe |
| TripStore.TripService.UpdateTrip | src/services/trip.service.ts:59-103 | the store's new state is `Updated` of the old one, which the lemmas above describe |
| FeedView.NextSortState | src/components/feed-view/feed-view.component.ts:69-75 | a toggle always changes the sort state |
| FeedView.ToggleCycle | src/components/feed-view/feed-view.component.ts:69-75 | the toggle goes none to asc, asc to desc and desc to none; three toggles are the identity and one or two are not |
| FeedView.Compare | src/components/feed-view/feed-view.component.ts:33-37 | the comparator is 0 exactly for trips of one tier; it is negative exactly when the first trip's rank is lower (ascending) or higher (descending) |
| FeedView.Insert | src/components/feed-view/feed-view.component.ts:33-37 | one insertion step of the sort adds exactly one element; its permutation, order and stability are the Insert lemmas |
| FeedView.SortBy | src/components/feed-view/feed-view.component.ts:33-37 | the sort keeps the length; its permutation, order and stability are the SortBy lemmas |
| FeedView.SortByPermutes | src/components/feed-view/feed-view.component.ts:33-37 | the insertion sort is a permutation of its input |
| FeedView.SortByOrders | src/components/feed-view/feed-view.component.ts:33-37 | the insertion sort leaves no pair out of comparator order |
| FeedView.SortByStable | src/components/feed-view/feed-view.component.ts:33-37 | the insertion sort keeps the order of the trips within every tier |
| FeedView.SortByOfSorted | src/components/feed-view/feed-view.component.ts:33-37 | a list already in comparator order is left as it is |
| FeedView.SortTrips | src/components/feed-view/feed-view.component.ts:22-40 | `sortedTrips`: the list itself when unsorted; otherwise a permutation with non-decreasing (asc) or non-increasing (desc) rank that keeps each tier's order |
| FeedView.SortTripsIdempotent | src/components/feed-view/feed-view.component.ts:22-40 | sorting twice in one direction gives the same list as sorting once |
| FeedView.StableOrderIsUnique | src/components/feed-view/feed-view.component.ts:33-37 | two lists that are both in comparator order and agree on every tier's order are equal |
| FeedView.StableSortAgrees | src/components/feed-view/feed-view.component.ts:33-37 | any stable sort by the comparator yields exactly `SortTrips` |
| FeedView.FeedViewComponent.constructor | src/components/feed-view/feed-view.component.ts:16-20 | nothing selected, unsorted, no activity map open, nothing emitted |
| FeedView.FeedViewComponent.SortedTrips | src/components/feed-view/feed-view.component.ts:22-40 | the list the feed shows: the store's list when unsorted; otherwise the same trips in non-decreasing (asc) or non-increasing (desc) budget rank; each tier always in the store's order |
| FeedView.FeedViewComponent.ToggleSort | src/components/feed-view/feed-view.component.ts:69-75 | the sort state advances one step of the cycle and nothing else changes |
| FeedView.FeedViewComponent.SelectTrip | src/components/feed-view/feed-view.component.ts:64-67 | the open trip is closed when it is the argument, otherwise the argument is opened; the store's map selection becomes null and nothing else in the store changes |
| FeedView.FeedViewComponent.OnMapSelection | src/components/feed-view/feed-view.component.ts:43-51 | for a non-empty picked id: sort reset to none, and the first trip with that id opened if there is one, else the open trip kept; for no id nothing changes |
| FeedView.FeedViewComponent.OpenActivityMap | src/components/feed-view/feed-view.component.ts:118-120 | the activity map shows the argument |
| FeedView.FeedViewComponent.CloseActivityMap | src/components/feed-view/feed-view.component.ts:122-124 | no activity map is shown |
| FeedView.FeedViewComponent.OnEditTrip | src/components/feed-view/feed-view.component.ts:126-128 | the argument is emitted on `editTrip` |
| MapView.FilteredTrips | src/components/map-view/map-view.component.ts:28-34 | Todos gives the list unchanged; a tier gives an order-preserving subsequence holding each trip of that tier as often as the list does and no other trip |
| MapView.PinColor | src/components/map-view/map-view.component.ts:148-155 | the pin colour of a tier is a `#` followed by six upper-case hex digits |
| MapView.PinColorsDistinct | src/components/map-view/map-view.component.ts:148-155 | the three tiers get three distinct pin colours |
| MapView.MarkersFor | src/components/map-view/map-view.component.ts:90-135 | one marker per trip, in order, each carrying its trip's id, position and tier colour |
| MapView.Viewport | src/components/map-view/map-view.component.ts:138-145 | no trips: camera unchanged; one trip: centred on it at zoom 12; more: fit to all their positions with padding 100 |
| MapView.MapViewComponent.constructor | src/components/map-view/map-view.component.ts:19-25 | filter Todos, no markers, no map yet, nothing emitted |
| MapView.MapViewComponent.Filtered | src/components/map-view/map-view.component.ts:28-34 | the trips the map shows: the store's list under Todos, the tier filter of it otherwise |
| MapView.MapViewComponent.SetBudgetFilter | src/components/map-view/map-view.component.ts:162-164 | only the filter changes, to the argument |
| MapView.MapViewComponent.ClearMarkers | src/components/map-view/map-view.component.ts:157-160 | the marker list is empty and nothing else changes |
| MapView.MapViewComponent.UpdateMarkers | src/components/map-view/map-view.component.ts:83-146 | the markers become one per given trip in order (none for an empty list) and the camera becomes the viewport choice when the map exists |
| MapView.MapViewComponent.InitMap | src/components/map-view/map-view.component.ts:54-81 | the map exists, starts at the default camera, and shows the filtered trips' markers and viewport |
| MapView.MapViewComponent.OnFilteredTripsChange | src/components/map-view/map-view.component.ts:37-42 | once the map exists, the markers and viewport follow the filtered trips; before, nothing changes |
| MapView.MapViewComponent.OnPinClick | src/components/map-view/map-view.component.ts:166-168 | the id is emitted on `tripSelected` |
| MapView.MapViewComponent.ClickMarker | src/components/map-view/map-view.component.ts:131-133 | a click on a marker emits exactly the id of the trip it was built for |
| TripCreator.TrimStart | src/components/trip-creator/trip-creator.component.ts:65 | the result is a suffix, everything dropped is whitespace, and it does not start with whitespace |
| TripCreator.TrimEnd | src/components/trip-creator/trip-creator.component.ts:65 | the result is a prefix, everything dropped is whitespace, and it does not end with whitespace |
| TripCreator.Trim | src/components/trip-creator/trip-creator.component.ts:65 | `trim()`: a slice of the input with only whitespace before and after it, and no whitespace at either of its own ends; non-empty whenever the input has a non-blank character |
| TripCreator.TrimEmptyIffBlank | src/components/trip-creator/trip-creator.component.ts:65 | trimming gives the empty string exactly when every character is whitespace |
| TripCreator.FormValidIff | src/components/trip-creator/trip-creator.component.ts:64-66 | the form is valid exactly when the location has a non-whitespace character and days > 0 |
| TripCreator.TripCreatorComponent.IsFormValid | src/components/trip-creator/trip-creator.component.ts:64-66 | the form is valid exactly when the location has a non-blank character and days > 0 |
| TripCreator.TripCreatorComponent.constructor | src/components/trip-creator/trip-creator.component.ts:13-27 | edit mode off, defaults ('', 5, Medio), nothing emitted |
| TripCreator.TripCreatorComponent.NgOnInit | src/components/trip-creator/trip-creator.component.ts:29-39 | with a trip to edit: edit mode on and the form copies its place, days and budget; without one nothing changes |
| TripCreator.TripCreatorComponent.HandleSubmit | src/components/trip-creator/trip-creator.component.ts:41-62 | an invalid form changes nothing and emits nothing; otherwise the store reaches `Updated` (edit mode with a trip, using its id) or `Created`, and `close` is emitted once exactly when the store's error is unset |
| TripCreator.TripCreatorComponent.CloseCreator | src/components/trip-creator/trip-creator.component.ts:68-70 | `close` is emitted once |
| App.AppComponent.constructor | src/app.component.ts:22-23 | the app starts on the feed with the creator hidden |
| App.AppComponent.OnViewChange | src/app.component.ts:25-27 | sets the view; the creator state is untouched |
| App.AppComponent.OnTripSelectedFromMap | src/app.component.ts:29-32 | records the id as the store's map selection (nothing else in the store changes) and shows the feed |
| App.AppComponent.OnShowCreator | src/app.component.ts:34-36 | creator in create mode with no trip |
| App.AppComponent.OnCloseCreator | src/app.component.ts:38-40 | creator hidden, from any mode |
| App.AppComponent.OnEditTrip | src/app.component.ts:42-44 | creator in edit mode carrying the trip |
| App.PinClickOpensTrip | src/app.component.ts:29-32 | a pin click, passed through the app and the feed's reaction, shows the feed, resets the sort and opens the first trip in the store with the pin's id; the trip list is untouched |

## Left out

- src/services/gemini.service.ts is not part of this model beyond its two results. The generators are function parameters that yield structured data or an error message. The prompt text, the response schema, the network calls and `JSON.parse` are left out, and so is a response that parses but lacks fields. `isConfigured` / `isGeminiConfigured`, a null check on the client, is left out.
- `crypto.randomUUID` is replaced by the `freshId` and `fallbackSeed` parameters. That UUIDs do not collide is an assumption, which `TripStore.CreateKeepsIdsUnique` states as its precondition.
- Asynchrony: each request runs to completion before another starts. Two overlapping requests share one `isLoading` flag and may interleave their list writes; that is not modelled. The loading flag is on only inside a request, from `BeginRequest` until the request settles.
- Console logging (`console.warn`, `console.error`) is left out.
- Google Maps objects are left out: `importLibrary`, `PinElement`, `AdvancedMarkerElement`, `InfoWindow`, the hover popup and its HTML, the event listeners, and setting `marker.map = null` when clearing. A marker is a record of its trip id, position, title and colour. `LatLngBounds` is the list of positions it was extended with. The camera is a value.
- `initMap`'s polling until the Maps script has loaded, `ngAfterViewInit` and `ngOnDestroy` are left out.
- MapView.PinColor: the source's `default` colour '#3B82F6' cannot be reached, because the budget type has exactly three values.
- src/components/activity-map/activity-map.component.ts and src/components/bottom-nav/bottom-nav.component.ts are not part of this model: one is map glue, the other forwards UI events.
- `shareTrip` (Web Share API, clipboard, `URL`, `alert`) and the effect's delayed scroll into view are browser I/O and are left out.
- Coordinates are JavaScript floating-point numbers. Here they are `real` values that are carried along and never computed with; their range is not checked, as in the source.
- `days` is a JavaScript number; the model takes it as an integer.
- FeedView.FeedViewComponent.SelectTrip: the source compares trips by object identity; the model compares them by value.
- Angular reactivity (signals, `computed`, `effect`) is plain fields plus explicit functions and methods; the model does not schedule the effects by itself.
- MapView.MapViewComponent.OnFilteredTripsChange: states one run of the map effect (map-view.component.ts:37-42), not when Angular runs it. The effect reads `filteredTrips()` only when `this.map` is set, and `map` is a plain field assigned after an `await` in `initMap`. If the first run finds no map, the effect registers no signal dependency and never runs again, so a later filter change or new trip would not redraw the markers. The model does not capture that.
- FeedView.FeedViewComponent.OnMapSelection: states one run of the feed effect (feed-view.component.ts:43-61), not when Angular runs it. While a map selection is pending, the effect also depends on `trips()`, so every create or update re-runs it: the sort is reset again and the trip is opened again. The model does not capture those re-runs.
- MapView.MapViewComponent.UpdateMarkers: the source awaits `importLibrary` inside its loop, so two overlapping calls can interleave their pushes onto `markers`. The model runs each call to completion.
- The length of a trip's `plan` is not checked against `dias_totales`; the source does not check it either.
