/**
 * The destination-change detector that `selectTrip` attaches to the current
 * trip's `sync` event (app/pages/index/index.js:106-115).
 *
 * A trip handle carries two destinations: the snapshot the detector recorded
 * last (`trip.destination`) and the live one the realtime transport or an
 * airport click writes (`trip.get('destination')`). Only the destinations'
 * codes are compared. Each evaluation of the listener is one discrete step;
 * the 300 ms throttle around it is not modelled.
 */
module DestinationSync {
  import opened Wrappers

  /** An airport-like destination: its code and whatever other fields it carries. */
  datatype Destination = Destination(code: Option<string>, fields: map<string, string>)

  /** `(d || {}).code`: the code of a destination that may be missing. */
  function CodeOf(d: Option<Destination>): Option<string>
  {
    if d.Some? then d.value.code else None
  }

  /** JavaScript truthiness of a code: a missing code and the empty string are falsy. */
  predicate Truthy(c: Option<string>)
  {
    c.Some? && c.value != ""
  }

  /** The listener's test `!fromCode || fromCode !== toCode`. */
  predicate IsChange(snapshot: Option<Destination>, live: Option<Destination>)
  {
    !Truthy(CodeOf(snapshot)) || CodeOf(snapshot) != CodeOf(live)
  }

  /** What one evaluation decides: whether `destination-changed` fires, and the new snapshot. */
  datatype Reconciled = Reconciled(emitted: bool, snapshot: Option<Destination>)

  /**
   * One evaluation of the listener. Afterwards the snapshot's code always
   * agrees with the live code; a silent evaluation leaves the snapshot alone,
   * and an emitting one copies the whole live destination into it.
   */
  function Step(snapshot: Option<Destination>, live: Option<Destination>): (r: Reconciled)
    ensures !Truthy(CodeOf(snapshot)) ==> r.emitted
    ensures Truthy(CodeOf(snapshot)) && CodeOf(snapshot) == CodeOf(live) ==> !r.emitted
    ensures CodeOf(r.snapshot) == CodeOf(live)
    ensures !r.emitted ==> r.snapshot == snapshot
    ensures r.emitted ==> r.snapshot == live
  {
    if IsChange(snapshot, live) then Reconciled(true, live) else Reconciled(false, snapshot)
  }

  /** The outcome of several evaluations: how many times the event fired, and the final snapshot. */
  datatype Outcome = Outcome(emissions: nat, snapshot: Option<Destination>)

  /**
   * A burst of realtime pushes, each writing the live destination and then
   * evaluated once by the listener. The event fires at most once per push,
   * and after a non-empty burst the recorded code is the last pushed code.
   */
  function Run(snapshot: Option<Destination>, pushes: seq<Option<Destination>>): (r: Outcome)
    ensures r.emissions <= |pushes|
    ensures |pushes| > 0 ==> CodeOf(r.snapshot) == CodeOf(pushes[|pushes| - 1])
    ensures |pushes| == 0 ==> r == Outcome(0, snapshot)
    decreases |pushes|
  {
    if |pushes| == 0 then Outcome(0, snapshot)
    else
      var first := Step(snapshot, pushes[0]);
      var rest := Run(first.snapshot, pushes[1..]);
      Outcome(rest.emissions + (if first.emitted then 1 else 0), rest.snapshot)
  }

  /**
   * The number of pushes whose code differs from the code before it, or
   * follows a missing or empty code; the code before the first push is the
   * recorded one.
   */
  function Changes(prev: Option<string>, pushes: seq<Option<Destination>>): nat
    decreases |pushes|
  {
    if |pushes| == 0 then 0
    else (if !Truthy(prev) || prev != CodeOf(pushes[0]) then 1 else 0) + Changes(CodeOf(pushes[0]), pushes[1..])
  }

  /** A burst fires exactly once for each push that `Changes` counts, and never otherwise. */
  lemma {:induction false} RunCountsChanges(snapshot: Option<Destination>, pushes: seq<Option<Destination>>)
    ensures Run(snapshot, pushes).emissions == Changes(CodeOf(snapshot), pushes)
    decreases |pushes|
  {
    if |pushes| > 0 {
      RunCountsChanges(Step(snapshot, pushes[0]).snapshot, pushes[1..]);
    }
  }

  /** `n` copies of the same live destination, as delivered by repeated no-op pushes. */
  function Repeat(d: Option<Destination>, n: nat): (s: seq<Option<Destination>>)
    ensures |s| == n && forall i :: 0 <= i < n ==> s[i] == d
  {
    if n == 0 then [] else [d] + Repeat(d, n - 1)
  }

  /**
   * Repeating the same live destination: nothing fires when the recorded code
   * is non-empty and equal to it; otherwise the event fires once and later
   * evaluations are silent, unless the live code is itself missing or empty,
   * in which case every evaluation fires again.
   */
  lemma {:induction false} RepeatedPushes(snapshot: Option<Destination>, live: Option<Destination>, n: nat)
    ensures Run(snapshot, Repeat(live, n)).emissions ==
      if n == 0 || !IsChange(snapshot, live) then 0
      else if Truthy(CodeOf(live)) then 1
      else n
    ensures n > 0 && IsChange(snapshot, live) ==> Run(snapshot, Repeat(live, n)).snapshot == live
    ensures !IsChange(snapshot, live) ==> Run(snapshot, Repeat(live, n)).snapshot == snapshot
    decreases n
  {
    if n > 0 {
      var s := Repeat(live, n);
      assert s[1..] == Repeat(live, n - 1);
      var first := Step(snapshot, live);
      RepeatedPushes(first.snapshot, live, n - 1);
      if IsChange(snapshot, live) {
        assert first.snapshot == live;
        assert IsChange(live, live) <==> !Truthy(CodeOf(live));
      }
    }
  }

  /**
   * Two evaluations with no change in between: the second one fires exactly
   * when the code the first one left behind is missing or empty.
   */
  lemma SecondEvaluation(snapshot: Option<Destination>, live: Option<Destination>)
    ensures Step(Step(snapshot, live).snapshot, live).emitted <==> !Truthy(CodeOf(live))
  {
  }

  /**
   * The scenario of a first push of "LAX" with no snapshot, a repeated "LAX"
   * and then "JFK": two emissions and a snapshot holding "JFK".
   */
  lemma LaxLaxJfk(fields: map<string, string>)
    ensures var lax, jfk := Some(Destination(Some("LAX"), fields)), Some(Destination(Some("JFK"), fields));
      Run(None, [lax, lax, jfk]) == Outcome(2, jfk)
  {
    var lax, jfk := Some(Destination(Some("LAX"), fields)), Some(Destination(Some("JFK"), fields));
    var pushes := [lax, lax, jfk];
    assert pushes[1..] == [lax, jfk];
    assert pushes[1..][1..] == [jfk];
    assert Step(None, lax) == Reconciled(true, lax);
    assert Step(lax, lax) == Reconciled(false, lax);
    assert "LAX" != "JFK" by { assert "LAX"[0] != "JFK"[0]; }
    assert Step(lax, jfk) == Reconciled(true, jfk);
    assert [jfk][1..] == [];
    assert Run(lax, [jfk]) == Outcome(1, jfk);
    assert Run(lax, [lax, jfk]) == Outcome(1, jfk);
  }

  /**
   * A trip handle as returned by the realtime store for one `(tripId, userId)`
   * pair, with the detector's snapshot, the live destination and the number of
   * `destination-changed` events it has triggered.
   */
  class TripHandle {
    const tripId: string
    const userId: Option<string>
    var snapshot: Option<Destination>
    var live: Option<Destination>
    var emissions: nat

    /** A freshly fetched handle: the live destination is what the first `sync` delivered, and no snapshot is recorded yet. */
    constructor (tripId: string, userId: Option<string>, delivered: Option<Destination>)
      ensures this.tripId == tripId && this.userId == userId
      ensures snapshot == None && live == delivered && emissions == 0
    {
      this.tripId := tripId;
      this.userId := userId;
      snapshot := None;
      live := delivered;
      emissions := 0;
    }

    /** `trip.set('destination', d)`, or a realtime push of a new destination: only the live value changes. */
    method SetDestination(d: Option<Destination>)
      modifies this`live
      ensures live == d
    {
      live := d;
    }

    /** One evaluation of the sync listener; `emitted` says whether `destination-changed` fired. */
    method Evaluate() returns (emitted: bool)
      modifies this`snapshot, this`emissions
      ensures Reconciled(emitted, snapshot) == Step(old(snapshot), live)
      ensures emissions == old(emissions) + (if emitted then 1 else 0)
    {
      var fromCode := CodeOf(snapshot);
      var toCode := CodeOf(live);
      emitted := !Truthy(fromCode) || fromCode != toCode;
      if emitted {
        emissions := emissions + 1;
        snapshot := live;
      }
    }
  }
}
