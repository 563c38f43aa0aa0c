/**
 * The route guard: it waits on the current-user stream for the first
 * determinate value, turns it into an allow/deny decision, and redirects
 * to the login page on a deny.
 */
module AuthGuard {
  import opened Types
  import Supabase

  /** Position of the first value in `stream` that is not `Unknown`, if any. */
  function FirstDeterminateIndex(stream: seq<Identity>): (r: Option<nat>)
    ensures r.None? <==> forall i :: 0 <= i < |stream| ==> stream[i].Unknown?
    ensures r.Some? ==> r.value < |stream| && !stream[r.value].Unknown?
    ensures r.Some? ==> forall i :: 0 <= i < r.value ==> stream[i].Unknown?
  {
    if |stream| == 0 then None
    else if !stream[0].Unknown? then Some(0)
    else
      match FirstDeterminateIndex(stream[1..])
      case None => None
      case Some(k) => Some(k + 1)
  }

  /** The value the filter-then-take-one pipeline lets through: the first one that is not `Unknown`. */
  function FirstDeterminate(stream: seq<Identity>): (r: Option<Identity>)
    ensures r.None? <==> forall i :: 0 <= i < |stream| ==> stream[i].Unknown?
    ensures r.Some? ==> !r.value.Unknown?
    ensures r.Some? ==> exists k :: 0 <= k < |stream| && stream[k] == r.value
                                    && forall i :: 0 <= i < k ==> stream[i].Unknown?
  {
    match FirstDeterminateIndex(stream)
    case None => None
    case Some(k) => Some(stream[k])
  }

  /** The guard's answer together with the navigation its `tap` performs. */
  datatype Decision = Decision(allow: bool, navigateTo: Option<string>)

  /**
   * The decision emitted for a current-user stream: none while the stream
   * is only `Unknown`; otherwise allow exactly when the first determinate
   * value is a user, and navigate to the login page exactly when it is not.
   */
  function CanActivate(stream: seq<Identity>): (r: Option<Decision>)
    ensures r.None? <==> forall i :: 0 <= i < |stream| ==> stream[i].Unknown?
    ensures r.Some? ==> (r.value.allow <==> FirstDeterminate(stream).value.Present?)
    ensures r.Some? ==> (r.value.navigateTo == Some(LoginPath) <==> FirstDeterminate(stream).value.Absent?)
    ensures r.Some? ==> (r.value.navigateTo.None? <==> r.value.allow)
  {
    match FirstDeterminate(stream)
    case None => None
    case Some(id) =>
      var navigation := if id.Present? then None else Some(LoginPath);
      Some(Decision(id.Present?, navigation))
  }

  /** An `Unknown` at the head of the stream is filtered out. */
  lemma FilterDropsUnknownHead(stream: seq<Identity>)
    requires |stream| > 0 && stream[0].Unknown?
    ensures CanActivate(stream) == CanActivate(stream[1..])
  {
  }

  /** Leading `Unknown` values are skipped: they never influence the decision. */
  lemma {:induction false} SkipsUnknown(unknowns: seq<Identity>, rest: seq<Identity>)
    requires forall i :: 0 <= i < |unknowns| ==> unknowns[i].Unknown?
    ensures CanActivate(unknowns + rest) == CanActivate(rest)
  {
    if |unknowns| > 0 {
      assert (unknowns + rest)[1..] == unknowns[1..] + rest;
      FilterDropsUnknownHead(unknowns + rest);
      SkipsUnknown(unknowns[1..], rest);
    } else {
      assert unknowns + rest == rest;
    }
  }

  /** Only one value is taken: once a prefix decides, later values change nothing. */
  lemma {:induction false} TakesOne(prefix: seq<Identity>, later: seq<Identity>)
    requires CanActivate(prefix).Some?
    ensures CanActivate(prefix + later) == CanActivate(prefix)
  {
    assert |prefix| > 0;
    if prefix[0].Unknown? {
      assert (prefix + later)[1..] == prefix[1..] + later;
      TakesOne(prefix[1..], later);
    }
  }

  /**
   * After the service has initialized, a guard subscribing to the subject
   * decides at once from the replayed value, whatever follows it.
   */
  lemma DecidesOnReplay(svc: Supabase.SupabaseService, later: seq<Identity>)
    requires svc.Valid() && svc.authInitialized
    ensures CanActivate([svc.currentUser] + later)
            == Some(Decision(svc.currentUser.Present?,
                             if svc.currentUser.Present? then None else Some(LoginPath)))
  {
  }
}
