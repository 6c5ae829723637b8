/**
 * The index page's state and its event handlers
 * (app/pages/index/index.js:58-137): the process-wide current trip and
 * participant set that `selectTrip` replaces, the signed-in user's
 * coordinates, the trip the map displays, and the last path handed to the
 * router. Asynchronous steps are taken as already delivered: their results are
 * parameters.
 */
module IndexPage {
  import opened Wrappers
  import opened DestinationSync
  import opened Navigation
  import opened LocationResolver

  /** A live participant collection scoped to one `(tripId, userId)` pair, keyed by user id. */
  class ParticipantSet {
    const tripId: string
    const userId: Option<string>
    var coords: map<string, Obj>

    /** A freshly subscribed collection holding the members the store delivered. */
    constructor (tripId: string, userId: Option<string>, delivered: map<string, Obj>)
      ensures this.tripId == tripId && this.userId == userId && coords == delivered
    {
      this.tripId := tripId;
      this.userId := userId;
      coords := delivered;
    }

    /** `participants.get(id).set('coords', c)` on an existing member. */
    method SetCoords(id: string, c: Obj)
      requires id in coords
      modifies this
      ensures coords == old(coords)[id := c]
    {
      coords := coords[id := c];
    }
  }

  /** The trip an event refers to. */
  datatype TripRef = TripRef(id: string)

  class Page {
    const userId: string
    var userCoords: Obj
    var trip: TripHandle?
    var participants: ParticipantSet?
    var mapTrip: Option<TripRef>
    var route: Option<string>

    /** The current trip and the current participant set are present together and scoped to the same pair. */
    ghost predicate Consistent()
      reads this, trip, participants
    {
      (trip == null <==> participants == null) &&
      (trip != null ==> trip.tripId == participants.tripId && trip.userId == participants.userId)
    }

    /** The page of a signed-in user, before any trip is selected. */
    constructor (userId: string, userCoords: Obj)
      ensures this.userId == userId && this.userCoords == userCoords
      ensures trip == null && participants == null && mapTrip == None && route == None
      ensures Consistent()
    {
      this.userId := userId;
      this.userCoords := userCoords;
      trip := null;
      participants := null;
      mapTrip := None;
      route := None;
    }

    /**
     * `selectTrip(tripId, userId)` up to the first `sync` (lines 93-101):
     * navigate to the trip's path and make a freshly fetched handle, scoped to
     * the pair as given, the current trip. The participant set is not touched
     * yet. The path falls back to the signed-in user when no user id is given;
     * the handle takes the user id unchanged.
     */
    method BeginSelection(tripId: string, userId: Option<string>, delivered: Option<Destination>) returns (started: TripHandle)
      modifies this
      ensures route == Some(NavigationPath(tripId, userId, this.userId))
      ensures fresh(started) && trip == started
      ensures started.tripId == tripId && started.userId == userId
      ensures started.live == delivered && started.snapshot == None && started.emissions == 0
      ensures participants == old(participants)
      ensures userCoords == old(userCoords) && mapTrip == old(mapTrip)
    {
      route := Some(NavigationPath(tripId, userId, this.userId));
      started := new TripHandle(tripId, userId, delivered);
      trip := started;
    }

    /**
     * The rest of `selectTrip` as written (lines 106-119), run when the first
     * `sync` of the selection's handle arrives: subscribe the participants of
     * the selection's own pair, whatever trip has become current meanwhile.
     */
    method FinishSelectionAsWritten(tripId: string, userId: Option<string>, members: map<string, Obj>)
      modifies this`participants
      ensures participants != null && fresh(participants)
      ensures participants.tripId == tripId && participants.userId == userId && participants.coords == members
    {
      participants := new ParticipantSet(tripId, userId, members);
    }

    /**
     * The rest of `selectTrip` as evidently intended: while the selection's
     * handle is still the current trip, subscribe the participants of its
     * pair, which leaves the pair consistent; once a later selection has
     * replaced it, change nothing.
     */
    method FinishSelection(started: TripHandle, members: map<string, Obj>)
      modifies this`participants
      ensures trip == started ==> participants != null && fresh(participants) && Consistent()
      ensures trip == started ==>
        participants.tripId == started.tripId && participants.userId == started.userId && participants.coords == members
      ensures trip != started ==> participants == old(participants)
    {
      if trip == started {
        participants := new ParticipantSet(started.tripId, started.userId, members);
      }
    }

    /**
     * `selectTrip(tripId, userId)` with no other selection in between: the
     * current trip and the participant set are replaced by fresh handles
     * scoped to the pair as given.
     */
    method SelectTrip(tripId: string, userId: Option<string>, delivered: Option<Destination>, members: map<string, Obj>)
      modifies this
      ensures route == Some(NavigationPath(tripId, userId, this.userId))
      ensures trip != null && fresh(trip)
      ensures trip.tripId == tripId && trip.userId == userId
      ensures trip.live == delivered && trip.snapshot == None && trip.emissions == 0
      ensures participants != null && fresh(participants)
      ensures participants.tripId == tripId && participants.userId == userId && participants.coords == members
      ensures Consistent()
      ensures userCoords == old(userCoords) && mapTrip == old(mapTrip)
    {
      var started := BeginSelection(tripId, userId, delivered);
      FinishSelection(started, members);
    }

    /**
     * Selecting "t1" and then "t2" before the first `sync` of "t1", with
     * "t2"'s `sync` arriving first: the continuation as written leaves the
     * trip of "t2" beside the participants of "t1".
     */
    method OverlappingSelectionsAsWritten(d1: Option<Destination>, d2: Option<Destination>, m1: map<string, Obj>, m2: map<string, Obj>)
      modifies this
      ensures trip != null && trip.tripId == "t2"
      ensures participants != null && participants.tripId == "t1" && participants.coords == m1
      ensures !Consistent()
    {
      var first := BeginSelection("t1", Some(userId), d1);
      var second := BeginSelection("t2", Some(userId), d2);
      FinishSelectionAsWritten("t2", Some(userId), m2);
      FinishSelectionAsWritten("t1", Some(userId), m1);
      assert "t1" != "t2" by { assert "t1"[1] != "t2"[1]; }
    }

    /** The same interleaving with the intended continuation: "t2" keeps its own participants. */
    method OverlappingSelections(d1: Option<Destination>, d2: Option<Destination>, m1: map<string, Obj>, m2: map<string, Obj>)
      modifies this
      ensures trip != null && trip.tripId == "t2"
      ensures participants != null && participants.tripId == "t2" && participants.coords == m2
      ensures Consistent()
    {
      var first := BeginSelection("t1", Some(userId), d1);
      var second := BeginSelection("t2", Some(userId), d2);
      FinishSelection(second, m2);
      FinishSelection(first, m1);
    }

    /** `onTripClick`: select the clicked trip for the signed-in user. */
    method OnTripClick(t: TripRef, delivered: Option<Destination>, members: map<string, Obj>)
      modifies this
      ensures route == Some(NavigationPath(t.id, None, userId))
      ensures trip != null && fresh(trip) && trip.tripId == t.id && trip.userId == Some(userId)
      ensures trip.live == delivered && trip.snapshot == None && trip.emissions == 0
      ensures participants != null && fresh(participants) && participants.coords == members
      ensures Consistent()
      ensures userCoords == old(userCoords) && mapTrip == old(mapTrip)
    {
      SelectTrip(t.id, Some(userId), delivered, members);
    }

    /**
     * The sync listener firing. It evaluates whatever trip is current when it
     * fires, whichever handle it was attached to; before any selection no
     * listener exists and nothing happens.
     */
    method SyncListener() returns (emitted: bool)
      modifies trip
      ensures old(Consistent()) ==> Consistent()
      ensures trip == null ==> !emitted
      ensures trip != null ==> trip.live == old(trip.live)
      ensures trip != null ==> Reconciled(emitted, trip.snapshot) == Step(old(trip.snapshot), trip.live)
      ensures trip != null ==> trip.emissions == old(trip.emissions) + (if emitted then 1 else 0)
    {
      if trip == null {
        emitted := false;
      } else {
        emitted := trip.Evaluate();
      }
    }

    /**
     * `onMapAirportClick`: write the clicked airport as the current trip's
     * live destination. Without a current trip the handler fails.
     */
    method OnMapAirportClick(airport: Destination) returns (ok: bool)
      modifies trip
      ensures old(Consistent()) ==> Consistent()
      ensures ok <==> trip != null
      ensures ok ==> trip.live == Some(airport) && trip.snapshot == old(trip.snapshot) && trip.emissions == old(trip.emissions)
    {
      if trip == null {
        ok := false;
      } else {
        trip.SetDestination(Some(airport));
        ok := true;
      }
    }

    /** `detectLocation`: set the user's coordinates when a location was found. */
    method DetectAndStore(located: Located, geocoded: GeoResult) returns (d: Detection)
      modifies this`userCoords
      ensures d == DetectLocation(located, geocoded)
      ensures userCoords == if d.Found? then d.coords else old(userCoords)
    {
      d := DetectLocation(located, geocoded);
      if d.Found? {
        userCoords := d.coords;
      }
    }

    /**
     * `onRelocateClick`: detect the location again; unless that failed, copy
     * the user's coordinates to the user's own participant record when a
     * participant set exists and holds the user.
     */
    method OnRelocateClick(located: Located, geocoded: GeoResult)
      modifies this`userCoords, participants
      ensures old(Consistent()) ==> Consistent()
      ensures var d := DetectLocation(located, geocoded);
        userCoords == if d.Found? then d.coords else old(userCoords)
      ensures participants != null ==>
        participants.coords ==
          if !DetectLocation(located, geocoded).Failed? && userId in old(participants.coords)
          then old(participants.coords)[userId := userCoords]
          else old(participants.coords)
    {
      var d := DetectAndStore(located, geocoded);
      if !d.Failed? && participants != null && userId in participants.coords {
        participants.SetCoords(userId, userCoords);
      }
    }

    /** `onShowTrip`: the map shows the event's trip. */
    method OnShowTrip(t: TripRef)
      modifies this`mapTrip
      ensures mapTrip == Some(t)
    {
      mapTrip := Some(t);
    }

    /** `onOriginAirportSelected`: the map shows the event's trip. */
    method OnOriginAirportSelected(t: TripRef)
      modifies this`mapTrip
      ensures mapTrip == Some(t)
    {
      mapTrip := Some(t);
    }

    /** `onDestinationAirportSelected`: the map shows the event's trip. */
    method OnDestinationAirportSelected(t: TripRef)
      modifies this`mapTrip
      ensures mapTrip == Some(t)
    {
      mapTrip := Some(t);
    }

    /** `onShowTripList`: the map shows no trip. */
    method OnShowTripList()
      modifies this`mapTrip
      ensures mapTrip == None
    {
      mapTrip := None;
    }
  }
}
