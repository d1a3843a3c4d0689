/**
 * The login page: sign-in with email and password, or with a Google popup
 * that also asks for read access to Gmail. The authentication service's
 * answers are parameters; its error codes become the messages shown.
 */
module LoginPage {
  import opened Wrappers

  const DashboardPath: string := "/dashboard"

  const UnknownError: string := "Ocorreu um erro desconhecido."
  const InvalidCredentials: string := "Credenciais inválidas. Verifique seu e-mail e senha."
  const InvalidEmail: string := "E-mail inválido."
  const TooManyRequests: string := "Muitas tentativas de login. Tente novamente mais tarde."

  const GoogleFailure: string := "Falha ao fazer login com o Google."
  const GoogleCancelled: string := "Login com Google cancelado pelo usuário."
  const GoogleBlocked: string := "Login com Google bloqueado pelo navegador."

  /** The codes that all mean "wrong email or password". */
  predicate IsCredentialCode(code: Option<string>) {
    code == Some("auth/invalid-credential") || code == Some("auth/user-not-found") || code == Some("auth/wrong-password")
  }

  /** The message for a failed email sign-in. */
  function SignInMessage(code: Option<string>): (r: string)
    ensures r == InvalidCredentials <==> IsCredentialCode(code)
    ensures r == InvalidEmail <==> code == Some("auth/invalid-email")
    ensures r == TooManyRequests <==> code == Some("auth/too-many-requests")
    ensures r == UnknownError <==>
              !IsCredentialCode(code) && code != Some("auth/invalid-email") && code != Some("auth/too-many-requests")
  {
    if code == Some("auth/invalid-credential") then InvalidCredentials
    else if code == Some("auth/invalid-email") then InvalidEmail
    else if code == Some("auth/user-not-found") || code == Some("auth/wrong-password") then InvalidCredentials
    else if code == Some("auth/too-many-requests") then TooManyRequests
    else UnknownError
  }

  /** The message for a failed Google sign-in. */
  function GoogleMessage(code: Option<string>): (r: string)
    ensures r == GoogleCancelled <==> code == Some("auth/popup-closed-by-user")
    ensures r == GoogleBlocked <==> code == Some("auth/popup-blocked")
    ensures r == GoogleFailure <==> code != Some("auth/popup-closed-by-user") && code != Some("auth/popup-blocked")
  {
    if code == Some("auth/popup-closed-by-user") then GoogleCancelled
    else if code == Some("auth/popup-blocked") then GoogleBlocked
    else GoogleFailure
  }

  /** The two sign-in paths never show the same message (the texts even differ in length), so a message tells which path failed. */
  lemma MessagesTellPathApart(a: Option<string>, b: Option<string>)
    ensures SignInMessage(a) != GoogleMessage(b)
  {
    var s, g := SignInMessage(a), GoogleMessage(b);
    assert s in {UnknownError, InvalidCredentials, InvalidEmail, TooManyRequests};
    assert g in {GoogleFailure, GoogleCancelled, GoogleBlocked};
    assert |s| in {29, 52, 16, 55};
    assert |g| in {34, 40, 42};
  }

  datatype SignInOutcome = SignedIn | SignInFailed(code: Option<string>)

  /** The popup's answer; a credential without an access token carries `None`. */
  datatype GoogleOutcome = GoogleSignedIn(accessToken: Option<string>) | GoogleFailed(code: Option<string>)

  datatype SignInRequest = SignInRequest(email: string, password: string)

  class Page {
    var email: string
    var password: string
    var isLoading: bool
    var error: string

    constructor()
      ensures email == "" && password == "" && !isLoading && error == ""
    {
      email, password, isLoading, error := "", "", false, "";
    }

    method HandleEmailChange(value: string)
      modifies this
      ensures email == value && password == old(password) && error == old(error) && isLoading == old(isLoading)
    {
      email := value;
    }

    method HandlePasswordChange(value: string)
      modifies this
      ensures password == value && email == old(email) && error == old(error) && isLoading == old(isLoading)
    {
      password := value;
    }

    /** `handleSubmit`: signs in with the typed credentials; success goes to the dashboard. */
    method HandleSubmit(outcome: SignInOutcome) returns (request: SignInRequest, navigate: Option<string>)
      modifies this
      ensures request == SignInRequest(old(email), old(password))
      ensures outcome.SignedIn? ==> navigate == Some(DashboardPath) && error == ""
      ensures outcome.SignInFailed? ==> navigate.None? && error == SignInMessage(outcome.code)
      ensures !isLoading && email == old(email) && password == old(password)
    {
      isLoading := true;
      error := "";
      request := SignInRequest(email, password);
      match outcome {
        case SignedIn =>
          navigate := Some(DashboardPath);
        case SignInFailed(code) =>
          navigate := None;
          error := SignInMessage(code);
      }
      isLoading := false;
    }

    /**
     * `handleGoogleSignIn`: a present access token is stored (returned here);
     * any successful popup goes to the dashboard.
     */
    method HandleGoogleSignIn(outcome: GoogleOutcome) returns (stored: Option<string>, navigate: Option<string>)
      modifies this
      ensures outcome.GoogleSignedIn? ==> navigate == Some(DashboardPath) && error == ""
      ensures outcome.GoogleSignedIn? && Truthy(outcome.accessToken) ==> stored == outcome.accessToken
      ensures stored.Some? <==> outcome.GoogleSignedIn? && Truthy(outcome.accessToken)
      ensures outcome.GoogleFailed? ==> navigate.None? && error == GoogleMessage(outcome.code)
      ensures !isLoading && email == old(email) && password == old(password)
    {
      isLoading := true;
      error := "";
      stored, navigate := None, None;
      match outcome {
        case GoogleSignedIn(accessToken) =>
          if Truthy(accessToken) {
            stored := accessToken;
          }
          navigate := Some(DashboardPath);
        case GoogleFailed(code) =>
          error := GoogleMessage(code);
      }
      isLoading := false;
    }
  }
}
