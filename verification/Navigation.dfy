/**
 * The navigation path `selectTrip` hands to the router
 * (app/pages/index/index.js:93): the segments
 * `index, index, trip, <tripId>, user, <userId>` joined with '/', where a
 * missing or empty user id falls back to the signed-in user's id.
 */
module Navigation {
  import opened Wrappers

  const Slash: char := '/'

  /** `parts.join(sep)`. */
  function Join(parts: seq<string>, sep: char): string
  {
    if |parts| == 0 then ""
    else if |parts| == 1 then parts[0]
    else parts[0] + [sep] + Join(parts[1..], sep)
  }

  /** `s.split(sep)`: the pieces between separators, always at least one. */
  function Split(s: string, sep: char): (parts: seq<string>)
    ensures |parts| >= 1
    decreases |s|
  {
    if |s| == 0 then [""]
    else if s[0] == sep then [""] + Split(s[1..], sep)
    else
      var rest := Split(s[1..], sep);
      [[s[0]] + rest[0]] + rest[1..]
  }

  /** `userId || currentUserId`. */
  function EffectiveUser(userId: Option<string>, currentUserId: string): string
  {
    if userId.Some? && userId.value != "" then userId.value else currentUserId
  }

  /** The path of the selected trip, as a literal template. */
  function NavigationPath(tripId: string, userId: Option<string>, currentUserId: string): (p: string)
    ensures p == "index/index/trip/" + tripId + "/user/" + EffectiveUser(userId, currentUserId)
  {
    var user := EffectiveUser(userId, currentUserId);
    JoinSix("index", "index", "trip", tripId, "user", user, Slash);
    Join(["index", "index", "trip", tripId, "user", user], Slash)
  }

  lemma JoinSix(a: string, b: string, c: string, d: string, e: string, f: string, sep: char)
    ensures Join([a, b, c, d, e, f], sep) == a + [sep] + b + [sep] + c + [sep] + d + [sep] + e + [sep] + f
  {
    var s := [a, b, c, d, e, f];
    assert s[1..] == [b, c, d, e, f];
    assert s[1..][1..] == [c, d, e, f];
    assert s[1..][1..][1..] == [d, e, f];
    assert s[1..][1..][1..][1..] == [e, f];
    assert [e, f][1..] == [f];
    assert Join([e, f], sep) == e + [sep] + f;
    assert Join([d, e, f], sep) == d + [sep] + (e + [sep] + f);
    assert Join([c, d, e, f], sep) == c + [sep] + (d + [sep] + (e + [sep] + f));
    assert Join([b, c, d, e, f], sep) == b + [sep] + (c + [sep] + (d + [sep] + (e + [sep] + f)));
  }

  /** A string with no separator splits into itself. */
  lemma {:induction false} SplitPlain(a: string, sep: char)
    requires sep !in a
    ensures Split(a, sep) == [a]
    decreases |a|
  {
    if |a| > 0 {
      SplitPlain(a[1..], sep);
      assert [a[0]] + a[1..] == a;
    }
  }

  /** Splitting at the first separator: the piece before it, then the split of the rest. */
  lemma {:induction false} SplitAtFirst(a: string, b: string, sep: char)
    requires sep !in a
    ensures Split(a + [sep] + b, sep) == [a] + Split(b, sep)
    decreases |a|
  {
    var s := a + [sep] + b;
    if |a| == 0 {
      assert s[1..] == b;
    } else {
      assert s[1..] == a[1..] + [sep] + b;
      SplitAtFirst(a[1..], b, sep);
      assert [a[0]] + a[1..] == a;
    }
  }

  /** Splitting undoes joining, as long as no part contains the separator. */
  lemma {:induction false} SplitJoin(parts: seq<string>, sep: char)
    requires |parts| >= 1
    requires forall i :: 0 <= i < |parts| ==> sep !in parts[i]
    ensures Split(Join(parts, sep), sep) == parts
    decreases |parts|
  {
    if |parts| == 1 {
      SplitPlain(parts[0], sep);
    } else {
      SplitJoin(parts[1..], sep);
      SplitAtFirst(parts[0], Join(parts[1..], sep), sep);
      assert [parts[0]] + parts[1..] == parts;
    }
  }

  /**
   * The router can read the trip and the user back from the path, provided
   * neither identifier contains a '/'.
   */
  lemma PathRoundTrip(tripId: string, userId: Option<string>, currentUserId: string)
    requires Slash !in tripId && Slash !in EffectiveUser(userId, currentUserId)
    ensures Split(NavigationPath(tripId, userId, currentUserId), Slash) ==
      ["index", "index", "trip", tripId, "user", EffectiveUser(userId, currentUserId)]
  {
    var parts := ["index", "index", "trip", tripId, "user", EffectiveUser(userId, currentUserId)];
    SplitJoin(parts, Slash);
  }
}
