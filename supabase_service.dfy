/**
 * The client-side session manager: the storage adapter the auth client
 * persists its token through, and the service that owns the tri-state
 * current-user subject.
 */
module Supabase {
  import opened Types

  /**
   * What parsing a stored entry as JSON yields: a throw (or a value whose
   * `expires_at` cannot be read), or an object whose `expires_at` is a
   * number (`None` when it is missing or not a number).
   */
  datatype StoredForm = Malformed | Parsed(expiresAt: Option<int>)

  /** The entry's `expires_at` is truthy and, read as seconds, lies strictly before `now` (milliseconds). */
  predicate Expired(form: StoredForm, now: int): (b: bool)
    // only a parsed entry with a nonzero expiry can be expired
    ensures b ==> form.Parsed? && form.expiresAt.Some? && form.expiresAt.value != 0
    // a token expiring at exactly `now` is still live
    ensures form.Parsed? && form.expiresAt.Some? && form.expiresAt.value * 1000 == now ==> !b
  {
    form.Parsed? && form.expiresAt.Some? && form.expiresAt.value != 0
    && form.expiresAt.value * 1000 < now
  }

  /** Once expired, an entry stays expired at every later time. */
  lemma ExpiredStaysExpired(form: StoredForm, now: int, later: int)
    requires Expired(form, now) && now <= later
    ensures Expired(form, later)
  {
  }

  /** What a read leaves behind: the value returned and the store afterwards. */
  datatype Lookup = Lookup(value: Option<string>, entries: map<string, string>)

  /**
   * The storage adapter's read. `readFails` and `removeFails` say whether
   * the underlying local storage throws on the read or on the removal.
   */
  function GetItemOutcome(entries: map<string, string>, key: string, readFails: bool,
                          removeFails: bool, parse: string -> StoredForm, now: int): (r: Lookup)
    // the stored string comes back untouched exactly when it is readable, non-empty, parses and has not expired
    ensures r.value.Some? <==>
              !readFails && key in entries && entries[key] != ""
              && parse(entries[key]).Parsed? && !Expired(parse(entries[key]), now)
    ensures r.value.Some? ==> r.value.value == entries[key]
    // a read never touches another key and never writes
    ensures forall k :: k != key ==> (k in r.entries <==> k in entries)
    ensures forall k :: k in r.entries ==> k in entries && r.entries[k] == entries[k]
    // the key is dropped exactly when an expired entry was found and its removal did not throw
    ensures key in entries && key !in r.entries <==>
              !readFails && key in entries && entries[key] != ""
              && Expired(parse(entries[key]), now) && !removeFails
  {
    if readFails || key !in entries || entries[key] == "" then Lookup(None, entries)
    else
      var form := parse(entries[key]);
      if form.Malformed? then Lookup(None, entries)
      else if Expired(form, now) then Lookup(None, if removeFails then entries else entries - {key})
      else Lookup(Some(entries[key]), entries)
  }

  /** Writing a token and reading it back yields the token, as long as it is non-empty, parses and is live. */
  lemma SetThenGet(entries: map<string, string>, key: string, token: string,
                   removeFails: bool, parse: string -> StoredForm, now: int)
    requires token != "" && parse(token).Parsed? && !Expired(parse(token), now)
    ensures GetItemOutcome(entries[key := token], key, false, removeFails, parse, now)
            == Lookup(Some(token), entries[key := token])
  {
  }

  /** A local key/value store seen through the adapter's three operations. */
  class StorageAdapter {
    var entries: map<string, string>

    constructor (entries: map<string, string>)
      ensures this.entries == entries
    {
      this.entries := entries;
    }

    /** Reads `key`, dropping an expired token; every failure reads as "no token". */
    method GetItem(key: string, readFails: bool, removeFails: bool,
                   parse: string -> StoredForm, now: int) returns (value: Option<string>)
      modifies this
      ensures value == GetItemOutcome(old(entries), key, readFails, removeFails, parse, now).value
      ensures entries == GetItemOutcome(old(entries), key, readFails, removeFails, parse, now).entries
    {
      if readFails || key !in entries {
        return None;
      }
      var stored := entries[key];
      if stored == "" {
        return None;
      }
      var form := parse(stored);
      if form.Malformed? {
        return None;
      }
      if Expired(form, now) {
        if !removeFails {
          entries := entries - {key};
        }
        return None;
      }
      value := Some(stored);
    }

    /** Stores `value` under `key`; a storage error (a full quota, say) is swallowed. */
    method SetItem(key: string, value: string, fails: bool)
      modifies this
      ensures entries == if fails then old(entries) else old(entries)[key := value]
    {
      if !fails {
        entries := entries[key := value];
      }
    }

    /** Removes `key`; a storage error is swallowed. */
    method RemoveItem(key: string, fails: bool)
      modifies this
      ensures entries == if fails then old(entries) else old(entries) - {key}
    {
      if !fails {
        entries := entries - {key};
      }
    }
  }

  /** How the auth client's `getSession` settles: with an error, with no session, or with a session's user. */
  datatype SessionCheck = SessionFailed(error: AuthError) | NoSession | ExistingSession(user: User)

  /** The identity a session-change notification carries: the session's user, or null without a session. */
  function NotifiedIdentity(session: Option<User>): (id: Identity)
    ensures !id.Unknown?
    ensures id.Present? <==> session.Some?
    ensures id.Present? ==> id.user == session.value
  {
    match session
    case Some(u) => Present(u)
    case None => Absent
  }

  class SupabaseService {
    /**
     * The adapter the auth client is configured with. It only records that
     * configuration: the client's own token reads are not part of this model.
     */
    const storage: StorageAdapter
    /** The latest value of the current-user subject, which new subscribers receive first. */
    var currentUser: Identity
    /** Every value the subject has carried, oldest first. */
    ghost var emitted: seq<Identity>
    var authInitialized: bool
    /** Whether the session-change listener has been registered with the auth client. */
    var listening: bool

    /**
     * The subject starts unknown and is never set back to unknown; it is
     * determinate exactly once initialization has finished, and the
     * listener exists only after initialization.
     */
    ghost predicate Valid()
      reads this
    {
      && |emitted| > 0
      && emitted[0] == Unknown
      && emitted[|emitted| - 1] == currentUser
      && (forall i :: 0 < i < |emitted| ==> !emitted[i].Unknown?)
      && (authInitialized <==> !currentUser.Unknown?)
      && (listening ==> authInitialized)
    }

    /** Models the service right after construction: initialization has been started but has not settled. */
    constructor (storage: StorageAdapter)
      ensures Valid()
      ensures this.storage == storage
      ensures currentUser == Unknown && emitted == [Unknown]
      ensures !authInitialized && !listening
    {
      this.storage := storage;
      currentUser := Unknown;
      emitted := [Unknown];
      authInitialized := false;
      listening := false;
    }

    /** Pushes a value onto the current-user subject. */
    method Publish(id: Identity)
      modifies this
      ensures currentUser == id && emitted == old(emitted) + [id]
      ensures authInitialized == old(authInitialized) && listening == old(listening)
    {
      currentUser := id;
      emitted := emitted + [id];
    }

    /**
     * Settles the session check: the existing session's user or null,
     * null on any error, and the session-change listener registered only
     * when the check did not fail. A second run changes nothing.
     */
    method InitializeAuth(check: SessionCheck)
      requires Valid()
      modifies this
      ensures Valid()
      ensures old(authInitialized) ==> unchanged(this)
      ensures !old(authInitialized) ==>
                && authInitialized
                && currentUser == (if check.ExistingSession? then Present(check.user) else Absent)
                && emitted == old(emitted) + [currentUser]
                && listening == !check.SessionFailed?
    {
      if authInitialized {
        return;
      }
      match check {
        case SessionFailed(_) =>
          Publish(Absent);
        case NoSession =>
          Publish(Absent);
          listening := true;
        case ExistingSession(u) =>
          Publish(Present(u));
          listening := true;
      }
      authInitialized := true;
    }

    /** A session-change notification from the auth client; heard only once the listener is registered. */
    method OnAuthStateChange(session: Option<User>)
      requires Valid()
      modifies this
      ensures Valid()
      ensures !old(listening) ==> unchanged(this)
      ensures old(listening) ==>
                && currentUser == NotifiedIdentity(session)
                && emitted == old(emitted) + [currentUser]
                && authInitialized && listening
    {
      if listening {
        Publish(NotifiedIdentity(session));
      }
    }

    /** Password sign-in: the remote outcome, error included, is passed through and no state is written. */
    method SignIn(email: string, password: string, remote: Result<AuthData, AuthError>)
      returns (r: Result<AuthData, AuthError>)
      ensures r == remote
    {
      match remote {
        case Ok(data) => r := Ok(data);
        case Err(e) => r := Err(e);
      }
    }

    /** Sign-out: the remote outcome, error included, is passed through and no state is written. */
    method SignOut(remote: Outcome) returns (r: Outcome)
      ensures r == remote
    {
      match remote {
        case Pass => r := Pass;
        case Fail(e) => r := Fail(e);
      }
    }

    /**
     * Starts initialization when it has not happened yet and answers with
     * the value a new subscriber to the subject receives first.
     */
    method GetCurrentUser(pending: SessionCheck) returns (current: Identity)
      requires Valid()
      modifies this
      ensures Valid()
      ensures current == currentUser && !current.Unknown? && authInitialized
      ensures old(authInitialized) ==> unchanged(this)
      ensures !old(authInitialized) ==>
                && currentUser == (if pending.ExistingSession? then Present(pending.user) else Absent)
                && emitted == old(emitted) + [currentUser]
                && listening == !pending.SessionFailed?
    {
      if !authInitialized {
        InitializeAuth(pending);
      }
      current := currentUser;
    }
  }
}
