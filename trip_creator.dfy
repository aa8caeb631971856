/**
 * The creator form of src/components/trip-creator/trip-creator.component.ts:
 * its validity check, the pre-fill in edit mode, and the submit that asks the
 * store to create or regenerate a trip and closes the form when no error was
 * recorded.
 */
module TripCreator {
  import opened TripModel
  import opened TripStore

  /** What the form holds: place, number of days, budget tier. */
  datatype TripDetails = TripDetails(location: string, days: int, budget: Budget)

  /** The form's defaults. */
  const DefaultDetails := TripDetails("", 5, Medio)

  /**
   * The characters `String.prototype.trim` removes: ECMAScript's WhiteSpace
   * (tab, vertical tab, form feed, space, no-break space, byte order mark and
   * the other space separators) and LineTerminator code points.
   */
  predicate IsWhitespace(c: char)
  {
    || c == '\U{0009}' || c == '\U{000B}' || c == '\U{000C}' || c == '\U{0020}'
    || c == '\U{00A0}' || c == '\U{FEFF}' || c == '\U{1680}' || ('\U{2000}' <= c <= '\U{200A}')
    || c == '\U{202F}' || c == '\U{205F}' || c == '\U{3000}'
    || c == '\U{000A}' || c == '\U{000D}' || c == '\U{2028}' || c == '\U{2029}'
  }

  /** Drops the leading whitespace: what is left is a suffix that starts with a non-blank. */
  function TrimStart(s: string): (r: string)
    ensures |r| <= |s| && r == s[|s| - |r|..]
    ensures forall i :: 0 <= i < |s| - |r| ==> IsWhitespace(s[i])
    ensures |r| > 0 ==> !IsWhitespace(r[0])
  {
    if |s| > 0 && IsWhitespace(s[0]) then TrimStart(s[1..]) else s
  }

  /** Drops the trailing whitespace: what is left is a prefix that ends with a non-blank. */
  function TrimEnd(s: string): (r: string)
    ensures |r| <= |s| && r == s[..|r|]
    ensures forall i :: |r| <= i < |s| ==> IsWhitespace(s[i])
    ensures |r| > 0 ==> !IsWhitespace(r[|r| - 1])
  {
    if |s| > 0 && IsWhitespace(s[|s| - 1]) then TrimEnd(s[..|s| - 1]) else s
  }

  /** Everything in `s` before index `a` and from index `b` on is whitespace. */
  predicate BlankOutside(s: string, a: nat, b: nat)
  {
    && (forall i :: 0 <= i < a && i < |s| ==> IsWhitespace(s[i]))
    && (forall i :: b <= i < |s| ==> IsWhitespace(s[i]))
  }

  /**
   * If `t` is `s` without some leading whitespace and `r` is `t` without some
   * trailing whitespace, then `r` is a slice of `s` with only whitespace
   * around it.
   */
  lemma {:induction false} TrimmedIsSlice(s: string, t: string, r: string)
    requires |t| <= |s| && t == s[|s| - |t|..]
    requires forall i :: 0 <= i < |s| - |t| ==> IsWhitespace(s[i])
    requires |r| <= |t| && r == t[..|r|]
    requires forall i :: |r| <= i < |t| ==> IsWhitespace(t[i])
    ensures exists a: nat, b: nat :: a <= b <= |s| && r == s[a..b] && BlankOutside(s, a, b)
  {
    var a := |s| - |t|;
    var b := a + |r|;
    assert r == s[a..b];
    assert BlankOutside(s, a, b) by {
      forall i | b <= i < |s| ensures IsWhitespace(s[i]) {
        assert s[i] == t[i - a];
      }
    }
  }

  /** `String.prototype.trim`: the slice of `s` between its leading and its trailing whitespace. */
  function Trim(s: string): (r: string)
    ensures |r| <= |s|
    ensures |r| > 0 ==> !IsWhitespace(r[0]) && !IsWhitespace(r[|r| - 1])
    ensures forall i :: 0 <= i < |s| && !IsWhitespace(s[i]) ==> |r| > 0
    ensures exists a: nat, b: nat :: a <= b <= |s| && r == s[a..b] && BlankOutside(s, a, b)
  {
    TrimmedIsSlice(s, TrimStart(s), TrimEnd(TrimStart(s)));
    TrimEnd(TrimStart(s))
  }

  /** Trimming leaves nothing exactly when the string is all whitespace. */
  lemma TrimEmptyIffBlank(s: string)
    ensures Trim(s) == "" <==> forall i :: 0 <= i < |s| ==> IsWhitespace(s[i])
  {
    var t := TrimStart(s);
    if !forall i :: 0 <= i < |s| ==> IsWhitespace(s[i]) {
      var i :| 0 <= i < |s| && !IsWhitespace(s[i]);
      assert t[i - (|s| - |t|)] == s[i];
    }
  }

  /** `isFormValid`: the trimmed location is not empty and the day count is positive. */
  predicate FormValid(d: TripDetails)
  {
    Trim(d.location) != "" && d.days > 0
  }

  /** The form is valid exactly when the location holds a non-blank character and days > 0. */
  lemma FormValidIff(d: TripDetails)
    ensures FormValid(d) <==>
              d.days > 0 && exists i :: 0 <= i < |d.location| && !IsWhitespace(d.location[i])
  {
    TrimEmptyIffBlank(d.location);
  }

  /** The creator form over the shared store. */
  class TripCreatorComponent {
    const service: TripService
    /** The `tripToEdit` input: the trip to regenerate, if any. */
    const tripToEdit: Option<Trip>
    var isEditMode: bool
    var tripDetails: TripDetails
    /** How many times `close` was emitted. */
    var closeEmitted: nat

    constructor (service: TripService, tripToEdit: Option<Trip>)
      ensures this.service == service && this.tripToEdit == tripToEdit
      ensures !isEditMode && tripDetails == DefaultDetails && closeEmitted == 0
    {
      this.service := service;
      this.tripToEdit := tripToEdit;
      isEditMode := false;
      tripDetails := DefaultDetails;
      closeEmitted := 0;
    }

    /** `isFormValid` on the form's current contents. */
    predicate IsFormValid()
      reads this
      ensures IsFormValid() <==>
                tripDetails.days > 0
                && exists i :: 0 <= i < |tripDetails.location| && !IsWhitespace(tripDetails.location[i])
    {
      FormValidIff(tripDetails);
      FormValid(tripDetails)
    }

    /** With a trip to edit, turns edit mode on and copies its place, days and budget. */
    method NgOnInit()
      modifies this`isEditMode, this`tripDetails
      ensures tripToEdit.Some? ==>
                && isEditMode
                && tripDetails == TripDetails(tripToEdit.value.ubicacion, tripToEdit.value.diasTotales,
                                              tripToEdit.value.presupuesto)
      ensures tripToEdit.None? ==> isEditMode == old(isEditMode) && tripDetails == old(tripDetails)
    {
      if tripToEdit.Some? {
        var trip := tripToEdit.value;
        isEditMode := true;
        tripDetails := TripDetails(trip.ubicacion, trip.diasTotales, trip.presupuesto);
      }
    }

    /**
     * Submits the form: nothing happens when it is invalid; otherwise the store
     * regenerates the trip being edited, or creates a new one, and `close` is
     * emitted when the store recorded no error.
     */
    method HandleSubmit(gen: ItineraryGenerator, imageGen: ImageGenerator,
                        freshId: string, fallbackSeed: string)
      modifies this`closeEmitted, service
      ensures !old(IsFormValid()) ==>
                service.State() == old(service.State()) && closeEmitted == old(closeEmitted)
      ensures old(IsFormValid()) && isEditMode && tripToEdit.Some? ==>
                service.State() == Updated(old(service.State()), tripToEdit.value.id, tripDetails.location,
                                           tripDetails.days, tripDetails.budget, gen, imageGen, fallbackSeed)
      ensures old(IsFormValid()) && !(isEditMode && tripToEdit.Some?) ==>
                service.State() == Created(old(service.State()), tripDetails.location, tripDetails.days,
                                           tripDetails.budget, gen, imageGen, freshId, fallbackSeed)
      ensures old(IsFormValid()) ==>
                closeEmitted == old(closeEmitted) + (if service.error.None? then 1 else 0)
    {
      if !IsFormValid() {
        return;
      }
      if isEditMode && tripToEdit.Some? {
        service.UpdateTrip(tripToEdit.value.id, tripDetails.location, tripDetails.days,
                           tripDetails.budget, gen, imageGen, fallbackSeed);
      } else {
        service.CreateTrip(tripDetails.location, tripDetails.days, tripDetails.budget,
                           gen, imageGen, freshId, fallbackSeed);
      }
      if service.error.None? {
        closeEmitted := closeEmitted + 1;
      }
    }

    /** Emits `close`. */
    method CloseCreator()
      modifies this`closeEmitted
      ensures closeEmitted == old(closeEmitted) + 1
    {
      closeEmitted := closeEmitted + 1;
    }
  }
}
