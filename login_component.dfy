/**
 * The login page: redirects an already signed-in user on load, and runs
 * the submit sequence over the `loading` and `errorMessage` fields.
 */
module Login {
  import opened Types
  import AuthGuard
  import Supabase

  const DashboardPath: string := "/dashboard"
  const FallbackError: string := "An error occurred during login"

  /** The message shown for a failed sign-in: the error's own message, or the fallback when it has none. */
  function ErrorText(e: AuthError): (m: string)
    ensures m != ""
    ensures e.message != "" ==> m == e.message
    ensures e.message == "" ==> m == FallbackError
  {
    if e.message != "" then e.message else FallbackError
  }

  /**
   * Where the page sends a visitor on load: to the dashboard exactly when
   * the first determinate value of the current-user stream is a user, and
   * nowhere while the stream is only `Unknown` or when it says nobody is
   * signed in.
   */
  function RedirectOnInit(stream: seq<Identity>): (r: Option<string>)
    ensures r.Some? <==> AuthGuard.FirstDeterminate(stream).Some? && AuthGuard.FirstDeterminate(stream).value.Present?
    ensures r.Some? ==> r.value == DashboardPath
  {
    match AuthGuard.FirstDeterminate(stream)
    case Some(Present(_)) => Some(DashboardPath)
    case _ => None
  }

  /** The page redirects on load exactly when the guard would let the visitor through. */
  lemma RedirectMatchesGuard(stream: seq<Identity>)
    ensures RedirectOnInit(stream).Some? <==>
              AuthGuard.CanActivate(stream).Some? && AuthGuard.CanActivate(stream).value.allow
  {
  }

  class LoginComponent {
    const service: Supabase.SupabaseService
    var loading: bool
    var errorMessage: string
    /** The paths the router has been told to navigate to, in order. */
    var navigations: seq<string>

    constructor (service: Supabase.SupabaseService)
      ensures this.service == service
      ensures !loading && errorMessage == "" && navigations == []
    {
      this.service := service;
      loading := false;
      errorMessage := "";
      navigations := [];
    }

    /** On load, follows the first determinate value of the current-user stream. */
    method NgOnInit(stream: seq<Identity>)
      modifies this`navigations
      ensures navigations == old(navigations) + (if RedirectOnInit(stream).Some? then [DashboardPath] else [])
    {
      var first := AuthGuard.FirstDeterminate(stream);
      if first.Some? && first.value.Present? {
        navigations := navigations + [DashboardPath];
      }
    }

    /** The part of a submit that runs before the sign-in call; says whether the call is made. */
    method BeginSubmit(formValid: bool) returns (proceed: bool)
      modifies this`loading, this`errorMessage
      ensures proceed == formValid
      ensures !formValid ==> loading == old(loading) && errorMessage == old(errorMessage)
      ensures formValid ==> loading && errorMessage == ""
    {
      if !formValid {
        return false;
      }
      loading := true;
      errorMessage := "";
      proceed := true;
    }

    /** The part of a submit after the sign-in call: navigate on success, report on failure, stop loading either way. */
    method FinishSubmit(outcome: Result<AuthData, AuthError>)
      modifies this`loading, this`errorMessage, this`navigations
      ensures !loading
      ensures outcome.Ok? ==> navigations == old(navigations) + [DashboardPath]
                              && errorMessage == old(errorMessage)
      ensures outcome.Err? ==> navigations == old(navigations)
                               && errorMessage == ErrorText(outcome.error)
    {
      match outcome {
        case Ok(_) =>
          navigations := navigations + [DashboardPath];
        case Err(e) =>
          errorMessage := ErrorText(e);
      }
      loading := false;
    }

    /**
     * Submits the form. An invalid form changes nothing and makes no call.
     * Otherwise loading is switched off again afterwards whatever happens;
     * a successful sign-in goes to the dashboard with no error message,
     * a failed one shows the error's message or the fallback.
     */
    method OnSubmit(formValid: bool, email: string, password: string, remote: Result<AuthData, AuthError>)
      modifies this
      ensures !formValid ==> unchanged(this)
      ensures formValid ==> !loading
      ensures formValid && remote.Ok? ==> errorMessage == "" && navigations == old(navigations) + [DashboardPath]
      ensures formValid && remote.Err? ==> errorMessage == ErrorText(remote.error) && navigations == old(navigations)
    {
      var proceed := BeginSubmit(formValid);
      if !proceed {
        return;
      }
      var outcome := service.SignIn(email, password, remote);
      FinishSubmit(outcome);
    }
  }
}
