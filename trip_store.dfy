/**
 * The trip store of src/services/trip.service.ts: the trip list, the loading
 * flag, the last error and the trip picked on the map, and the two generation
 * requests that change them.
 *
 * The itinerary and image generators are passed in as functions from a
 * request to an outcome, and the two random UUIDs a request draws are passed
 * in as `freshId` (the new trip's id) and `fallbackSeed` (the seed of the
 * placeholder image). A request is then a deterministic state transition.
 */
module TripStore {
  import opened TripModel

  /** The fields of a generated itinerary that the store copies into a trip. */
  datatype GeneratedTrip = GeneratedTrip(
    titulo: string,
    descripcion: string,
    ubicacion: string,
    coordenadas: LatLng,
    plan: seq<DayPlan>)

  /** What one itinerary request yields: the data, or an error with its message. */
  datatype ItineraryOutcome = Itinerary(data: GeneratedTrip) | ItineraryError(message: string)

  /** What one image request yields: base64 image bytes, or an error with its message. */
  datatype ImageOutcome = ImageBytes(base64: string) | ImageError(message: string)

  /** The itinerary generator, asked with (location, days, budget). */
  type ItineraryGenerator = (string, int, Budget) -> ItineraryOutcome

  /** The image generator, asked with a text prompt. */
  type ImageGenerator = string -> ImageOutcome

  const UnknownError: string := "An unknown error occurred."
  const DataUrlPrefix: string := "data:image/jpeg;base64,"

  /** The message stored for a failure: `e.message || 'An unknown error occurred.'`. */
  function ErrorMessage(message: string): (r: string)
    ensures r != ""
    ensures message != "" ==> r == message
    ensures message == "" ==> r == UnknownError
  {
    if message == "" then UnknownError else message
  }

  const FallbackHead: string := "https://picsum.photos/seed/"
  const FallbackTail: string := "/800/600"

  /** The placeholder image, seeded by a fresh token. */
  function FallbackImageUrl(seed: string): (r: string)
    ensures |r| == |FallbackHead| + |seed| + |FallbackTail|
    ensures r[..|FallbackHead|] == FallbackHead && r[|r| - |FallbackTail|..] == FallbackTail
    ensures r[|FallbackHead|..|r| - |FallbackTail|] == seed
  {
    FallbackHead + seed + FallbackTail
  }

  /** The fixed parts of the image prompt. */
  const PromptHead: string := "Una hermosa fotograf\U{ED}a de alta calidad para un blog de viajes de \""
  const PromptMiddle: string := "\" en "
  const PromptTail: string := ". Estilo cinematogr\U{E1}fico, colores vibrantes, muy detallada."

  /** The prompt sent to the image generator, built from the generated title and place. */
  function ImagePrompt(data: GeneratedTrip): (r: string)
    ensures var t := |PromptHead|;
            var u := t + |data.titulo| + |PromptMiddle|;
            && |r| == u + |data.ubicacion| + |PromptTail|
            && r[t..t + |data.titulo|] == data.titulo
            && r[u..u + |data.ubicacion|] == data.ubicacion
            && r[..t] == PromptHead
            && r[t + |data.titulo|..u] == PromptMiddle
            && r[u + |data.ubicacion|..] == PromptTail
  {
    PromptHead + data.titulo + PromptMiddle + data.ubicacion + PromptTail
  }

  /**
   * The image reference a trip ends up with: the data URL of the returned bytes,
   * or the placeholder when the image request failed.
   */
  function ResolveImageUrl(image: ImageOutcome, seed: string): (r: string)
    ensures r != ""
    ensures image.ImageBytes? ==> |r| >= |DataUrlPrefix| && r[..|DataUrlPrefix|] == DataUrlPrefix
                                  && r[|DataUrlPrefix|..] == image.base64
    ensures image.ImageError? ==> r == FallbackImageUrl(seed)
  {
    match image
    case ImageBytes(bytes) => DataUrlPrefix + bytes
    case ImageError(_) => FallbackImageUrl(seed)
  }

  /** A generated image and a placeholder can never be mistaken for one another. */
  lemma ImageUrlKinds(bytes: string, message: string, seed1: string, seed2: string)
    ensures ResolveImageUrl(ImageBytes(bytes), seed1) != ResolveImageUrl(ImageError(message), seed2)
  {
    assert ResolveImageUrl(ImageBytes(bytes), seed1)[0] == 'd';
    assert ResolveImageUrl(ImageError(message), seed2)[0] == 'h';
  }

  /**
   * The trip a request commits: id, budget and day count from the caller, the
   * rest from the generated itinerary, and the resolved image.
   */
  function Assemble(id: string, budget: Budget, days: int, data: GeneratedTrip, imageUrl: string): (r: Trip)
    ensures r.id == id && r.presupuesto == budget && r.diasTotales == days && r.imageUrl == imageUrl
    ensures GeneratedTrip(r.titulo, r.descripcion, r.ubicacion, r.coordenadas, r.plan) == data
  {
    Trip(id, data.titulo, data.descripcion, data.ubicacion, budget, days,
         data.coordenadas, data.plan, imageUrl)
  }

  /** The list update of a create: the new trip goes first. */
  function Prepend(trips: seq<Trip>, trip: Trip): (r: seq<Trip>)
    ensures |r| == |trips| + 1 && r[0] == trip && r[1..] == trips
  {
    [trip] + trips
  }

  /**
   * The list update of an edit: the first trip carrying `id` is replaced in
   * place by `trip`; without such a trip the list is returned as it was.
   */
  function ReplaceById(trips: seq<Trip>, id: string, trip: Trip): (r: seq<Trip>)
    ensures |r| == |trips|
    ensures !HasId(trips, id) ==> r == trips
    ensures forall j :: 0 <= j < |trips| && trips[j].id != id ==> r[j] == trips[j]
    ensures HasId(trips, id) ==>
              && r[FindIndex(trips, id)] == trip
              && forall j :: 0 <= j < |trips| && j != FindIndex(trips, id) ==> r[j] == trips[j]
  {
    var index := FindIndex(trips, id);
    if index != -1 then trips[index := trip] else trips
  }

  /** The observable state of the store. */
  datatype StoreState = StoreState(
    trips: seq<Trip>,
    isLoading: bool,
    error: Option<string>,
    mapSelectedTripId: Option<string>)

  /** The state at start-up: no trips, idle, no error, nothing picked on the map. */
  const InitialState := StoreState([], false, None, None)

  /** The state while a request is in flight: loading, error cleared. */
  function Started(s: StoreState): StoreState
  {
    s.(isLoading := true, error := None)
  }

  /** The image reference for generated data: ask the image generator, fall back on failure. */
  function ImageFor(data: GeneratedTrip, imageGen: ImageGenerator, fallbackSeed: string): string
  {
    ResolveImageUrl(imageGen(ImagePrompt(data)), fallbackSeed)
  }

  /** The state after `createTrip(location, days, budget)` has settled. */
  function Created(s: StoreState, location: string, days: int, budget: Budget,
                   gen: ItineraryGenerator, imageGen: ImageGenerator,
                   freshId: string, fallbackSeed: string): (r: StoreState)
    ensures !r.isLoading && r.mapSelectedTripId == s.mapSelectedTripId
    ensures r.error.None? <==> gen(location, days, budget).Itinerary?
    ensures r.error.Some? ==> r.trips == s.trips
    ensures r.error.None? ==> |r.trips| == |s.trips| + 1 && r.trips[1..] == s.trips
  {
    var s1 := Started(s);
    match gen(location, days, budget)
    case ItineraryError(message) =>
      s1.(error := Some(ErrorMessage(message)), isLoading := false)
    case Itinerary(data) =>
      var trip := Assemble(freshId, budget, days, data, ImageFor(data, imageGen, fallbackSeed));
      s1.(trips := Prepend(s1.trips, trip), isLoading := false)
  }

  /** The state after `updateTrip(tripId, location, days, budget)` has settled. */
  function Updated(s: StoreState, tripId: string, location: string, days: int, budget: Budget,
                   gen: ItineraryGenerator, imageGen: ImageGenerator,
                   fallbackSeed: string): (r: StoreState)
    ensures !r.isLoading && r.mapSelectedTripId == s.mapSelectedTripId
    ensures r.error.None? <==> gen(location, days, budget).Itinerary?
    ensures r.error.Some? ==> r.trips == s.trips
    ensures |r.trips| == |s.trips|
  {
    var s1 := Started(s);
    match gen(location, days, budget)
    case ItineraryError(message) =>
      s1.(error := Some(ErrorMessage(message)), isLoading := false)
    case Itinerary(data) =>
      var trip := Assemble(tripId, budget, days, data, ImageFor(data, imageGen, fallbackSeed));
      s1.(trips := ReplaceById(s1.trips, tripId, trip), isLoading := false)
  }

  /**
   * A successful create puts the assembled trip at index 0 and keeps the old
   * list, in order, behind it; it clears the error.
   */
  lemma CreateSuccessPrepends(s: StoreState, location: string, days: int, budget: Budget,
                              gen: ItineraryGenerator, imageGen: ImageGenerator,
                              freshId: string, fallbackSeed: string)
    requires gen(location, days, budget).Itinerary?
    ensures var data := gen(location, days, budget).data;
            var s' := Created(s, location, days, budget, gen, imageGen, freshId, fallbackSeed);
            && |s'.trips| == |s.trips| + 1
            && s'.trips[1..] == s.trips
            && s'.trips[0].id == freshId
            && s'.trips[0].presupuesto == budget && s'.trips[0].diasTotales == days
            && s'.trips[0].titulo == data.titulo && s'.trips[0].descripcion == data.descripcion
            && s'.trips[0].ubicacion == data.ubicacion && s'.trips[0].coordenadas == data.coordenadas
            && s'.trips[0].plan == data.plan
            && s'.error == None && !s'.isLoading
            && s'.mapSelectedTripId == s.mapSelectedTripId
  {
  }

  /**
   * A failed itinerary request leaves the list as it was and records a
   * non-empty error: the failure's message, or the generic one when it is empty.
   */
  lemma GenerationFailureKeepsTrips(s: StoreState, tripId: string, location: string, days: int,
                                    budget: Budget, gen: ItineraryGenerator, imageGen: ImageGenerator,
                                    freshId: string, fallbackSeed: string)
    requires gen(location, days, budget).ItineraryError?
    ensures var message := gen(location, days, budget).message;
            var expected := if message == "" then UnknownError else message;
            var c := Created(s, location, days, budget, gen, imageGen, freshId, fallbackSeed);
            var u := Updated(s, tripId, location, days, budget, gen, imageGen, fallbackSeed);
            && c.trips == s.trips && c.error == Some(expected) && !c.isLoading
            && u.trips == s.trips && u.error == Some(expected) && !u.isLoading
            && expected != ""
  {
  }

  /**
   * A failed image request is absorbed: the trip is still committed with the
   * placeholder image and no error is recorded. A successful one gives the
   * trip the data URL of the returned bytes.
   */
  lemma ImageOutcomeIsAbsorbed(s: StoreState, location: string, days: int, budget: Budget,
                               gen: ItineraryGenerator, imageGen: ImageGenerator,
                               freshId: string, fallbackSeed: string)
    requires gen(location, days, budget).Itinerary?
    ensures var data := gen(location, days, budget).data;
            var image := imageGen(ImagePrompt(data));
            var s' := Created(s, location, days, budget, gen, imageGen, freshId, fallbackSeed);
            && s'.error == None
            && |s'.trips| == |s.trips| + 1
            && (image.ImageError? ==> s'.trips[0].imageUrl == FallbackImageUrl(fallbackSeed))
            && (image.ImageBytes? ==> s'.trips[0].imageUrl == DataUrlPrefix + image.base64)
  {
  }

  /**
   * A successful update whose id is present replaces the FIRST trip carrying
   * that id, at the same position, by the assembled trip with the same id;
   * the length and every other position are unchanged.
   */
  lemma {:induction false} UpdateReplacesFirstMatch(s: StoreState, tripId: string, location: string,
                                                    days: int, budget: Budget, gen: ItineraryGenerator,
                                                    imageGen: ImageGenerator, fallbackSeed: string, i: nat)
    requires gen(location, days, budget).Itinerary?
    requires i < |s.trips| && s.trips[i].id == tripId
    requires forall j :: 0 <= j < i ==> s.trips[j].id != tripId
    ensures var data := gen(location, days, budget).data;
            var s' := Updated(s, tripId, location, days, budget, gen, imageGen, fallbackSeed);
            && |s'.trips| == |s.trips|
            && s'.trips[i] == Assemble(tripId, budget, days, data, ImageFor(data, imageGen, fallbackSeed))
            && s'.trips[i].id == tripId
            && (forall j :: 0 <= j < |s.trips| && j != i ==> s'.trips[j] == s.trips[j])
            && s'.error == None && !s'.isLoading
  {
    FirstMatchIsFindIndex(s.trips, tripId, i);
  }

  /** An update whose id is absent leaves the list exactly as it was and records no error. */
  lemma UpdateAbsentIdKeepsTrips(s: StoreState, tripId: string, location: string, days: int,
                                 budget: Budget, gen: ItineraryGenerator, imageGen: ImageGenerator,
                                 fallbackSeed: string)
    requires !HasId(s.trips, tripId)
    ensures var s' := Updated(s, tripId, location, days, budget, gen, imageGen, fallbackSeed);
            && s'.trips == s.trips
            && (gen(location, days, budget).Itinerary? ==> s'.error == None)
  {
  }

  /** A create keeps the ids unique when the fresh id is not in use yet. */
  lemma {:induction false} CreateKeepsIdsUnique(s: StoreState, location: string, days: int,
                                                budget: Budget, gen: ItineraryGenerator,
                                                imageGen: ImageGenerator, freshId: string,
                                                fallbackSeed: string)
    requires IdsUnique(s.trips) && !HasId(s.trips, freshId)
    ensures IdsUnique(Created(s, location, days, budget, gen, imageGen, freshId, fallbackSeed).trips)
  {
    var s' := Created(s, location, days, budget, gen, imageGen, freshId, fallbackSeed);
    if gen(location, days, budget).Itinerary? {
      forall i, j | 0 <= i < j < |s'.trips| ensures s'.trips[i].id != s'.trips[j].id {
        if i == 0 {
          assert s'.trips[j] == s.trips[j - 1];
        } else {
          assert s'.trips[i] == s.trips[i - 1] && s'.trips[j] == s.trips[j - 1];
        }
      }
    }
  }

  /**
   * An update keeps the ids unique, and when the edited id was present it is
   * still carried by exactly one trip, which holds the regenerated data.
   */
  lemma {:induction false} UpdateKeepsIdsUnique(s: StoreState, tripId: string, location: string,
                                                days: int, budget: Budget, gen: ItineraryGenerator,
                                                imageGen: ImageGenerator, fallbackSeed: string)
    requires IdsUnique(s.trips)
    ensures var s' := Updated(s, tripId, location, days, budget, gen, imageGen, fallbackSeed);
            && IdsUnique(s'.trips)
            && (HasId(s.trips, tripId) <==> HasId(s'.trips, tripId))
            && (HasId(s.trips, tripId) && gen(location, days, budget).Itinerary? ==>
                  s'.trips[FindIndex(s.trips, tripId)].titulo == gen(location, days, budget).data.titulo)
  {
    var s' := Updated(s, tripId, location, days, budget, gen, imageGen, fallbackSeed);
    if gen(location, days, budget).Itinerary? && HasId(s.trips, tripId) {
      var k := FindIndex(s.trips, tripId);
      assert s'.trips == s.trips[k := s'.trips[k]];
      assert s'.trips[k].id == tripId;
      forall i, j | 0 <= i < j < |s'.trips| ensures s'.trips[i].id != s'.trips[j].id {
        if i != k && j != k {
          assert s'.trips[i] == s.trips[i] && s'.trips[j] == s.trips[j];
        } else if i == k {
          assert s'.trips[j] == s.trips[j];
        } else {
          assert s'.trips[i] == s.trips[i];
        }
      }
      assert HasId(s'.trips, tripId) by { assert s'.trips[k].id == tripId; }
    }
  }

  /**
   * The store itself. Each request is taken as atomic: the model does not
   * interleave two requests.
   */
  class TripService {
    var trips: seq<Trip>
    var isLoading: bool
    var error: Option<string>
    var mapSelectedTripId: Option<string>

    /** The store's fields as one value. */
    function State(): StoreState
      reads this
    {
      StoreState(trips, isLoading, error, mapSelectedTripId)
    }

    constructor ()
      ensures State() == InitialState
    {
      trips := [];
      isLoading := false;
      error := None;
      mapSelectedTripId := None;
    }

    /** Records the trip picked on the map (or clears it); nothing else changes. */
    method SelectTripFromMap(tripId: Option<string>)
      modifies this
      ensures State() == old(State()).(mapSelectedTripId := tripId)
    {
      mapSelectedTripId := tripId;
    }

    /** The first step of every request: loading on, error cleared. */
    method BeginRequest()
      modifies this
      ensures State() == Started(old(State()))
    {
      isLoading := true;
      error := None;
    }

    /** Generates a trip and puts it at the head of the list. */
    method CreateTrip(location: string, days: int, budget: Budget,
                      gen: ItineraryGenerator, imageGen: ImageGenerator,
                      freshId: string, fallbackSeed: string)
      modifies this
      ensures State() == Created(old(State()), location, days, budget, gen, imageGen, freshId, fallbackSeed)
    {
      BeginRequest();
      var outcome := gen(location, days, budget);
      if outcome.ItineraryError? {
        error := Some(ErrorMessage(outcome.message));
      } else {
        var data := outcome.data;
        var imageUrl := FallbackImageUrl(fallbackSeed);
        var image := imageGen(ImagePrompt(data));
        if image.ImageBytes? {
          imageUrl := DataUrlPrefix + image.base64;
        }
        var newTrip := Assemble(freshId, budget, days, data, imageUrl);
        trips := Prepend(trips, newTrip);
      }
      isLoading := false;
    }

    /** Regenerates the trip `tripId` and replaces it in place, keeping its id. */
    method UpdateTrip(tripId: string, location: string, days: int, budget: Budget,
                      gen: ItineraryGenerator, imageGen: ImageGenerator, fallbackSeed: string)
      modifies this
      ensures State() == Updated(old(State()), tripId, location, days, budget, gen, imageGen, fallbackSeed)
    {
      BeginRequest();
      var outcome := gen(location, days, budget);
      if outcome.ItineraryError? {
        error := Some(ErrorMessage(outcome.message));
      } else {
        var data := outcome.data;
        var imageUrl := FallbackImageUrl(fallbackSeed);
        var image := imageGen(ImagePrompt(data));
        if image.ImageBytes? {
          imageUrl := DataUrlPrefix + image.base64;
        }
        var updatedTrip := Assemble(tripId, budget, days, data, imageUrl);
        trips := ReplaceById(trips, tripId, updatedTrip);
      }
      isLoading := false;
    }
  }
}
