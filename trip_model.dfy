/**
 * The records of a generated trip (src/models/trip.model.ts) and the list
 * queries that the store and the views share: search by id and the filter by
 * budget tier.
 */
module TripModel {

  datatype Option<+T> = None | Some(value: T)

  /** The budget tier of a trip: exactly one of three values. */
  datatype Budget = Bajo | Medio | Alto

  /**
   * A latitude/longitude pair. The source holds JavaScript numbers; the model
   * only carries them from the generator to the trip and the map.
   */
  datatype LatLng = LatLng(lat: real, lng: real)

  /** A suggested restaurant; the map link is optional. */
  datatype Restaurante = Restaurante(nombre: string, tipoCocina: string, mapaUrl: Option<string>)

  /** One activity of a day: a name, where it is, and the emoji used as its pin. */
  datatype Activity = Activity(nombre: string, coordenadas: LatLng, emoji: string)

  /** One day of an itinerary; the restaurant list is optional. */
  datatype DayPlan = DayPlan(
    dia: int,
    tituloDia: string,
    actividades: seq<Activity>,
    restaurantes: Option<seq<Restaurante>>)

  /** A generated trip. `plan` is ordered: day one first. */
  datatype Trip = Trip(
    id: string,
    titulo: string,
    descripcion: string,
    ubicacion: string,
    presupuesto: Budget,
    diasTotales: int,
    coordenadas: LatLng,
    plan: seq<DayPlan>,
    imageUrl: string)

  /** The rank the feed sorts by: Bajo = 1, Medio = 2, Alto = 3. */
  function BudgetRank(b: Budget): (r: int)
    ensures 1 <= r <= 3
  {
    match b
    case Bajo => 1
    case Medio => 2
    case Alto => 3
  }

  /** The rank orders the tiers strictly, so equal ranks mean equal tiers. */
  lemma BudgetRankOrdersTiers(a: Budget, b: Budget)
    ensures BudgetRank(Bajo) < BudgetRank(Medio) < BudgetRank(Alto)
    ensures BudgetRank(a) == BudgetRank(b) <==> a == b
  {
  }

  /** Some trip in `trips` carries `id`. */
  predicate HasId(trips: seq<Trip>, id: string)
  {
    exists i :: 0 <= i < |trips| && trips[i].id == id
  }

  /** No two trips in `trips` share an id. */
  predicate IdsUnique(trips: seq<Trip>)
  {
    forall i, j :: 0 <= i < j < |trips| ==> trips[i].id != trips[j].id
  }

  /**
   * `Array.prototype.findIndex` with the test `t.id === id`: the index of the
   * first trip carrying `id`, or -1 when there is none.
   */
  function FindIndex(trips: seq<Trip>, id: string): (r: int)
    ensures -1 <= r < |trips|
    ensures r == -1 <==> !HasId(trips, id)
    ensures 0 <= r ==> trips[r].id == id
    ensures 0 <= r ==> forall j :: 0 <= j < r ==> trips[j].id != id
  {
    if |trips| == 0 then -1
    else if trips[0].id == id then 0
    else
      var k := FindIndex(trips[1..], id);
      if k == -1 then -1 else k + 1
  }

  /**
   * `Array.prototype.find` with the test `t.id === id`: the first trip that
   * carries `id`, if any.
   */
  function Find(trips: seq<Trip>, id: string): (r: Option<Trip>)
    ensures r.None? <==> !HasId(trips, id)
    ensures r.Some? ==> exists i :: 0 <= i < |trips| && trips[i] == r.value && r.value.id == id
                                    && forall j :: 0 <= j < i ==> trips[j].id != id
  {
    var k := FindIndex(trips, id);
    if k == -1 then None else Some(trips[k])
  }

  /** The first match is unique: any index that is the first match is FindIndex's answer. */
  lemma {:induction false} FirstMatchIsFindIndex(trips: seq<Trip>, id: string, i: nat)
    requires i < |trips| && trips[i].id == id
    requires forall j :: 0 <= j < i ==> trips[j].id != id
    ensures FindIndex(trips, id) == i
  {
    assert HasId(trips, id);
  }

  /** `a` is an order-preserving subsequence of `b` (greedy matching decides it). */
  predicate IsSubsequence<T(==)>(a: seq<T>, b: seq<T>)
    decreases |b|
  {
    if |a| == 0 then true
    else if |b| == 0 then false
    else if a[0] == b[0] then IsSubsequence(a[1..], b[1..])
    else IsSubsequence(a, b[1..])
  }

  /**
   * The trips of one budget tier, in their original order: the filter
   * `trips.filter(trip => trip.presupuesto === tier)`.
   */
  function OfTier(trips: seq<Trip>, tier: Budget): (r: seq<Trip>)
    ensures |r| <= |trips|
    ensures forall t :: t in r <==> t in trips && t.presupuesto == tier
    ensures forall t :: multiset(r)[t] == if t.presupuesto == tier then multiset(trips)[t] else 0
    ensures IsSubsequence(r, trips)
  {
    if |trips| == 0 then []
    else
      var rest := OfTier(trips[1..], tier);
      assert multiset(trips) == multiset{trips[0]} + multiset(trips[1..]) by {
        assert trips == [trips[0]] + trips[1..];
      }
      if trips[0].presupuesto == tier then [trips[0]] + rest else rest
  }
}
