/** The back end's in-memory error log: a newest-first list capped at 100
    entries, with per-type and per-route counts. The clock is a parameter
    (the ISO timestamp of the call); logging and metrics are side channels
    that do not affect the stored state. */
module ErrorTracking {
  import opened Values
  import opened Text

  /** The thrown error's `message`, `stack` and `name` properties. */
  datatype ThrownError = ThrownError(message: Option<Json>, stack: Option<Json>, name: Option<Json>)

  datatype ErrorInfo = ErrorInfo(
    timestamp: string,
    message: Option<Json>,
    stack: Option<Json>,
    errorType: Json,
    context: map<string, Json>)

  const MaxErrors: nat := 100
  const DefaultRecentLimit: int := 10

  /** `{ route: c.route || 'unknown', method: c.method || 'unknown',
      userId: c.userId || 'anonymous', ...c }`: a missing route, method or
      user id takes its default; the caller's keys come last and so win over
      the defaults, even a falsy value; every key of the caller is kept. */
  function ContextOf(c: map<string, Json>): (r: map<string, Json>)
    ensures r.Keys == c.Keys + {"route", "method", "userId"}
    ensures "route" !in c ==> r["route"] == JStr("unknown")
    ensures "method" !in c ==> r["method"] == JStr("unknown")
    ensures "userId" !in c ==> r["userId"] == JStr("anonymous")
    ensures forall k :: k in c ==> k in r && r[k] == c[k]
  {
    map[
      "route" := JsOr(Get(c, "route"), Some(JStr("unknown"))).GetOr(JNull),
      "method" := JsOr(Get(c, "method"), Some(JStr("unknown"))).GetOr(JNull),
      "userId" := JsOr(Get(c, "userId"), Some(JStr("anonymous"))).GetOr(JNull)
    ] + c
  }

  function InfoOf(e: ThrownError, c: map<string, Json>, timestamp: string): ErrorInfo
  {
    ErrorInfo(timestamp, e.message, e.stack, JsOr(e.name, Some(JStr("Error"))).GetOr(JNull), ContextOf(c))
  }

  /** The type recorded for an error: its name when truthy, else "Error". */
  lemma InfoType(e: ThrownError, c: map<string, Json>, timestamp: string)
    ensures Truthy(e.name) ==> InfoOf(e, c, timestamp).errorType == e.name.value
    ensures !Truthy(e.name) ==> InfoOf(e, c, timestamp).errorType == JStr("Error")
    ensures InfoOf(e, c, timestamp).timestamp == timestamp
  {
  }

  /** `unshift` followed by a `pop` when the list has grown past the cap. */
  function Pushed(errs: seq<ErrorInfo>, info: ErrorInfo): seq<ErrorInfo>
  {
    var grown := [info] + errs;
    if |grown| > MaxErrors then grown[..|grown| - 1] else grown
  }

  /** The new error comes first; below the cap nothing is lost; at the cap the
      oldest entry is the one dropped; a log within the cap stays within it. */
  lemma PushedProps(errs: seq<ErrorInfo>, info: ErrorInfo)
    ensures Pushed(errs, info)[0] == info
    ensures |errs| < MaxErrors ==> Pushed(errs, info) == [info] + errs
    ensures |errs| >= MaxErrors ==> Pushed(errs, info) == [info] + errs[..|errs| - 1]
    ensures |errs| <= MaxErrors ==> |Pushed(errs, info)| <= MaxErrors
    ensures Pushed(errs, info)[1..] <= errs
  {
    var grown := [info] + errs;
    if |errs| >= MaxErrors {
      assert grown[..|grown| - 1] == [info] + errs[..|errs| - 1];
    }
  }

  // ---------------------------------------------------------------------
  // Counting (`stats.byType[k] = (stats.byType[k] || 0) + 1`)
  // ---------------------------------------------------------------------

  /** A count table, its keys in first-occurrence order. A JavaScript
      object lists integer-like keys first, in ascending order, and the
      other keys in insertion order; the model keeps first-occurrence order
      for every key. */
  type Counts<K> = seq<(K, nat)>

  function IndexOfKey<K(==)>(t: Counts<K>, k: K): (i: int)
    ensures -1 <= i < |t|
    ensures i >= 0 ==> t[i].0 == k
    ensures i == -1 <==> forall j :: 0 <= j < |t| ==> t[j].0 != k
  {
    if |t| == 0 then -1
    else if t[|t| - 1].0 == k then |t| - 1
    else IndexOfKey(t[..|t| - 1], k)
  }

  function Bump<K(==)>(t: Counts<K>, k: K): Counts<K>
  {
    var i := IndexOfKey(t, k);
    if i >= 0 then t[i := (k, t[i].1 + 1)] else t + [(k, 1)]
  }

  function Tally<K(==)>(keys: seq<K>): Counts<K>
  {
    if |keys| == 0 then [] else Bump(Tally(keys[..|keys| - 1]), keys[|keys| - 1])
  }

  function Total<K>(t: Counts<K>): nat
  {
    if |t| == 0 then 0 else Total(t[..|t| - 1]) + t[|t| - 1].1
  }

  function Occurrences<K(==)>(keys: seq<K>, k: K): nat
  {
    if |keys| == 0 then 0
    else Occurrences(keys[..|keys| - 1], k) + (if keys[|keys| - 1] == k then 1 else 0)
  }

  ghost predicate DistinctKeys<K>(t: Counts<K>)
  {
    forall i, j :: 0 <= i < j < |t| ==> t[i].0 != t[j].0
  }

  lemma {:induction false} TotalUpdate<K>(t: Counts<K>, i: nat, k: K)
    requires i < |t|
    ensures Total(t[i := (k, t[i].1 + 1)]) == Total(t) + 1
    decreases |t|
  {
    var u := t[i := (k, t[i].1 + 1)];
    assert u[..|u| - 1] == if i == |t| - 1 then t[..|t| - 1] else t[..|t| - 1][i := (k, t[i].1 + 1)];
    if i < |t| - 1 {
      TotalUpdate(t[..|t| - 1], i, k);
    }
  }

  lemma BumpProps<K>(t: Counts<K>, k: K)
    requires DistinctKeys(t)
    ensures DistinctKeys(Bump(t, k))
    ensures Total(Bump(t, k)) == Total(t) + 1
  {
    var i := IndexOfKey(t, k);
    if i >= 0 {
      TotalUpdate(t, i, k);
    } else {
      assert (t + [(k, 1)])[..|t|] == t;
    }
  }

  /** Each key appears once in the table, and the counts add up to the
      number of keys counted. */
  lemma {:induction false} TallyTotal<K>(keys: seq<K>)
    ensures DistinctKeys(Tally(keys))
    ensures Total(Tally(keys)) == |keys|
    decreases |keys|
  {
    if |keys| > 0 {
      TallyTotal(keys[..|keys| - 1]);
      BumpProps(Tally(keys[..|keys| - 1]), keys[|keys| - 1]);
    }
  }

  lemma {:induction false} OccurrencesAbsent<K>(keys: seq<K>, k: K)
    requires k !in keys
    ensures Occurrences(keys, k) == 0
    decreases |keys|
  {
    if |keys| > 0 {
      OccurrencesAbsent(keys[..|keys| - 1], k);
    }
  }

  /** A key is in the table exactly when it occurs. */
  lemma {:induction false} TallyKeys<K>(keys: seq<K>)
    ensures forall k :: IndexOfKey(Tally(keys), k) >= 0 <==> k in keys
    decreases |keys|
  {
    if |keys| > 0 {
      var init := keys[..|keys| - 1];
      var last := keys[|keys| - 1];
      TallyKeys(init);
      var t := Tally(init);
      var j := IndexOfKey(t, last);
      var u := Bump(t, last);
      forall k
        ensures IndexOfKey(u, k) >= 0 <==> k in keys
      {
        assert k in keys <==> k in init || k == last;
        if k in init {
          var m := IndexOfKey(t, k);
          assert u[m].0 == k;
        }
        if k == last {
          assert u[if j >= 0 then j else |t|].0 == k;
        }
        if IndexOfKey(u, k) >= 0 {
          var m := IndexOfKey(u, k);
          if m < |t| && t[m].0 != last {
            assert t[m].0 == k;
          }
        }
      }
    }
  }

  /** Every entry counts exactly the occurrences of its key, and a key is in
      the table exactly when it occurs. */
  lemma {:induction false} TallyCounts<K>(keys: seq<K>)
    ensures forall i :: 0 <= i < |Tally(keys)| ==> Tally(keys)[i].1 == Occurrences(keys, Tally(keys)[i].0)
    ensures forall k :: IndexOfKey(Tally(keys), k) >= 0 <==> k in keys
    decreases |keys|
  {
    TallyKeys(keys);
    if |keys| > 0 {
      var init := keys[..|keys| - 1];
      var last := keys[|keys| - 1];
      TallyCounts(init);
      TallyTotal(init);
      var t := Tally(init);
      var j := IndexOfKey(t, last);
      var u := Bump(t, last);
      forall i | 0 <= i < |u|
        ensures u[i].1 == Occurrences(keys, u[i].0)
      {
        if i == j {
          assert u[i] == (last, t[j].1 + 1);
        } else if i == |t| {
          assert j == -1 && last !in init;
          assert u[i] == (last, 1);
          OccurrencesAbsent(init, last);
        } else {
          assert u[i] == t[i];
          assert t[i].0 != last;
        }
      }
    }
  }

  /** `getErrorStats` without the clock-based `last24Hours` counter. */
  datatype ErrorStats = ErrorStats(total: nat, byType: Counts<Json>, byRoute: Counts<Option<Json>>)

  function TypesOf(errs: seq<ErrorInfo>): seq<Json>
  {
    seq(|errs|, i requires 0 <= i < |errs| => errs[i].errorType)
  }

  function RoutesOf(errs: seq<ErrorInfo>): seq<Option<Json>>
  {
    seq(|errs|, i requires 0 <= i < |errs| => Get(errs[i].context, "route"))
  }

  /** The total is the log's length, each table sums to the total, and
      each key appears once in its table. */
  function Stats(errs: seq<ErrorInfo>): (r: ErrorStats)
    ensures r.total == |errs|
    ensures Total(r.byType) == r.total && Total(r.byRoute) == r.total
    ensures DistinctKeys(r.byType) && DistinctKeys(r.byRoute)
  {
    TallyTotal(TypesOf(errs));
    TallyTotal(RoutesOf(errs));
    ErrorStats(|errs|, Tally(TypesOf(errs)), Tally(RoutesOf(errs)))
  }

  /** Each entry of either table counts exactly the logged errors with that
      type or route, and every type and route that occurs has an entry. */
  lemma StatsCounts(errs: seq<ErrorInfo>)
    ensures var s := Stats(errs);
      && (forall i :: 0 <= i < |s.byType| ==> s.byType[i].1 == Occurrences(TypesOf(errs), s.byType[i].0))
      && (forall k :: IndexOfKey(s.byType, k) >= 0 <==> k in TypesOf(errs))
      && (forall i :: 0 <= i < |s.byRoute| ==> s.byRoute[i].1 == Occurrences(RoutesOf(errs), s.byRoute[i].0))
      && (forall k :: IndexOfKey(s.byRoute, k) >= 0 <==> k in RoutesOf(errs))
  {
    TallyCounts(TypesOf(errs));
    TallyCounts(RoutesOf(errs));
    var s := Stats(errs);
    assert s.byType == Tally(TypesOf(errs));
    assert s.byRoute == Tally(RoutesOf(errs));
    forall k: Option<Json>
      ensures IndexOfKey(s.byRoute, k) >= 0 <==> k in RoutesOf(errs)
    {
      assert IndexOfKey(Tally(RoutesOf(errs)), k) >= 0 <==> k in RoutesOf(errs);
    }
  }

  class ErrorTracker {
    var errors: seq<ErrorInfo>

    ghost predicate Valid()
      reads this
    {
      |errors| <= MaxErrors
    }

    constructor()
      ensures errors == [] && Valid()
    {
      errors := [];
    }

    /** `trackError`. */
    method TrackError(e: ThrownError, context: map<string, Json>, timestamp: string) returns (info: ErrorInfo)
      modifies this
      ensures info == InfoOf(e, context, timestamp)
      ensures errors == Pushed(old(errors), info)
      ensures old(Valid()) ==> Valid()
    {
      info := InfoOf(e, context, timestamp);
      errors := [info] + errors;
      if |errors| > MaxErrors {
        errors := errors[..|errors| - 1];
      }
      PushedProps(old(errors), info);
    }

    /** `getRecentErrors(limit)`; `None` is the default limit of 10. */
    function GetRecentErrors(limit: Option<int>): (r: seq<ErrorInfo>)
      reads this
      ensures |r| <= |errors| && r == errors[..|r|]
      ensures var n := limit.GetOr(DefaultRecentLimit);
        n >= 0 ==> |r| == if n < |errors| then n else |errors|
    {
      SliceTo(errors, limit.GetOr(DefaultRecentLimit))
    }

    /** `getErrorStats`: one pass over the log, bumping both tables. */
    method GetErrorStats() returns (stats: ErrorStats)
      ensures stats == Stats(errors)
    {
      var byType: Counts<Json> := [];
      var byRoute: Counts<Option<Json>> := [];
      for i := 0 to |errors|
        invariant byType == Tally(TypesOf(errors[..i]))
        invariant byRoute == Tally(RoutesOf(errors[..i]))
      {
        assert TypesOf(errors[..i + 1])[..i] == TypesOf(errors[..i]);
        assert RoutesOf(errors[..i + 1])[..i] == RoutesOf(errors[..i]);
        byType := Bump(byType, errors[i].errorType);
        byRoute := Bump(byRoute, Get(errors[i].context, "route"));
      }
      assert errors[..|errors|] == errors;
      stats := ErrorStats(|errors|, byType, byRoute);
    }

    /** `clearErrors`. */
    method ClearErrors()
      modifies this
      ensures errors == []
    {
      errors := [];
    }
  }

  /** Right after tracking, the most recent error is the one just tracked. */
  lemma TrackedIsMostRecent(errs: seq<ErrorInfo>, info: ErrorInfo)
    ensures SliceTo(Pushed(errs, info), 1) == [info]
  {
    PushedProps(errs, info);
  }
}
