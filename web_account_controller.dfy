/**
 * The web front end's `AccountController`: password sign-in, the step up to an
 * authenticator code, and the reset-password link.
 *
 * A sign-in goes `Login` (POST) -> `LoginWith2Fa` (GET, then POST) -> signed in.
 * The API endpoints, the sign-in manager, the token accessor and the URL helper
 * are collaborators: their answers are inputs (`Collaborators`), and every call
 * made on them is recorded, in order, in the returned `effects`.
 * Form fields are those of a bound form; whether the form validated is the input
 * `modelStateValid`.
 */
module WebAccountController {
  import opened Wrappers
  import opened Mvc
  import TwoFactorCode

  datatype LoginViewModel = LoginViewModel(email: string, password: string)
  datatype UserCredentials = UserCredentials(username: string, password: string)
  datatype AuthenticatedUser = AuthenticatedUser(authenticated: bool, username: string)
  datatype SignInResult = SignInResult(success: bool, requiresTwoFactor: bool)
  /** What the token accessor hands back: a claims principal, its cookie properties and the bearer token, all opaque. */
  datatype AccessTokenResult = AccessTokenResult(claimsPrincipal: string, authenticationProperties: string, accessToken: string)
  datatype LoginWith2FaViewModel = LoginWith2FaViewModel(twoFactorCode: string, rememberMachine: bool)
  /** The request sent to the API's `VerifyTwoFactorToken`. */
  datatype VerifyTwoFactorModel = VerifyTwoFactorModel(userId: string, code: string, rememberMachine: bool)
  datatype ResetPasswordModel = ResetPasswordModel(userId: Option<string>, resetCode: string)

  datatype Collaborators = Collaborators(
    // IAuthenticationEndpoint.Authenticate
    authenticate: UserCredentials -> AuthenticatedUser,
    // SignInManager.SignInOrTwoFactor
    signInOrTwoFactor: AuthenticatedUser -> SignInResult,
    // SignInManager.GetTwoFactorAuthenticationUserAsync: the user id awaiting a second factor, if any
    twoFactorUser: Option<string>,
    // IAccountsEndpoint.VerifyTwoFactorTokenAsync(...).Verified
    verifyTwoFactorToken: VerifyTwoFactorModel -> bool,
    // IAuthenticationEndpoint.Authenticate2Fa
    authenticate2Fa: string -> AuthenticatedUser,
    // IJwtTokenAccessor.GetAccessTokenWithClaimsPrincipal
    accessTokenFor: AuthenticatedUser -> AccessTokenResult,
    // Url.Content and Url.IsLocalUrl
    content: string -> string,
    isLocalUrl: string -> bool)

  datatype Event =
    | Authenticate(credentials: UserCredentials)
    | SignInOrTwoFactor(user: AuthenticatedUser)
    | GetTwoFactorAuthenticationUser
    | VerifyTwoFactorToken(request: VerifyTwoFactorModel)
    | Authenticate2Fa(userId: string)
    | RememberTwoFactorClient(userId: string)
    | SignOut
    | SignIn(claimsPrincipal: string, authenticationProperties: string)
    | AddTokenToHeaders(accessToken: string)

  const AppRoot: string := "~/"
  const InvalidLoginAttempt: string := "Invalid login attempt."
  const InvalidAuthenticatorCode: string := "Invalid authenticator code."
  const NoTwoFactorUser: string := "Unable to load two-factor authentication user."
  const CodeRequired: string := "A code must be supplied for password reset."

  /** `RedirectToLocal`: to the URL itself when it is local, otherwise to the home page. */
  function RedirectToLocal(web: Collaborators, returnUrl: string): (r: ActionResult)
    ensures web.isLocalUrl(returnUrl) <==> r == RedirectResult(returnUrl)
    ensures !web.isLocalUrl(returnUrl) <==> r == RedirectToActionResult("Index", Some("Home"), NoRouteValues)
  {
    if web.isLocalUrl(returnUrl) then RedirectResult(returnUrl)
    else RedirectToActionResult("Index", Some("Home"), NoRouteValues)
  }

  /**
   * `Login` (POST). An invalid form is shown again without asking the API; a
   * failed password check and a sign-in that neither succeeds nor needs a second
   * factor get the same generic error.
   */
  method Login(web: Collaborators, model: LoginViewModel, modelStateValid: bool, returnUrl: Option<string>)
    returns (r: ActionResult, effects: seq<Event>)
    ensures !modelStateValid ==> r == ViewResult(None, []) && effects == []
    ensures modelStateValid ==>
              var credentials := UserCredentials(model.email, model.password);
              var user := web.authenticate(credentials);
              var signIn := web.signInOrTwoFactor(user);
              && (!user.authenticated ==> effects == [Authenticate(credentials)])
              && (user.authenticated ==> effects == [Authenticate(credentials), SignInOrTwoFactor(user)])
              && (user.authenticated && signIn.success ==>
                    r == RedirectToLocal(web, returnUrl.GetOr(web.content(AppRoot))))
              && (user.authenticated && !signIn.success && signIn.requiresTwoFactor ==>
                    r == RedirectToActionResult("LoginWith2Fa", None, ReturnUrlValue(returnUrl)))
              && (!(user.authenticated && (signIn.success || signIn.requiresTwoFactor)) ==>
                    r == ViewResult(None, [ModelError("", InvalidLoginAttempt)]))
  {
    effects := [];
    if modelStateValid {
      var credentials := UserCredentials(model.email, model.password);
      effects := effects + [Authenticate(credentials)];
      var authenticatedUser := web.authenticate(credentials);
      if authenticatedUser.authenticated {
        effects := effects + [SignInOrTwoFactor(authenticatedUser)];
        var signInResult := web.signInOrTwoFactor(authenticatedUser);
        if signInResult.success {
          var target := if returnUrl.Some? then returnUrl.value else web.content(AppRoot);
          return RedirectToLocal(web, target), effects;
        }
        if signInResult.requiresTwoFactor {
          return RedirectToActionResult("LoginWith2Fa", None, ReturnUrlValue(returnUrl)), effects;
        }
      }
      return ViewResult(None, [ModelError("", InvalidLoginAttempt)]), effects;
    }
    // an invalid form is shown again as posted
    r := ViewResult(None, []);
  }

  /** `LoginWith2Fa` (GET): throws unless a user is waiting for a second factor; the form carries `returnUrl`. */
  method LoginWith2FaForm(web: Collaborators, returnUrl: Option<string>)
    returns (r: ActionResult, formReturnUrl: Option<string>, effects: seq<Event>)
    ensures effects == [GetTwoFactorAuthenticationUser]
    ensures web.twoFactorUser.None? <==> r == Thrown(InvalidOperationException, NoTwoFactorUser)
    ensures web.twoFactorUser.Some? ==> r == ViewResult(None, []) && formReturnUrl == returnUrl
  {
    effects := [GetTwoFactorAuthenticationUser];
    var user := web.twoFactorUser;
    if user.None? {
      return Thrown(InvalidOperationException, NoTwoFactorUser), None, effects;
    }
    r, formReturnUrl := ViewResult(None, []), returnUrl;
  }

  /** The calls a verified code leads to, in the order `LoginWith2Fa` (POST) makes them. */
  function SignInCalls(web: Collaborators, userId: string, rememberMachine: bool): seq<Event> {
    var token := web.accessTokenFor(web.authenticate2Fa(userId));
    [Authenticate2Fa(userId)]
    + (if rememberMachine then [RememberTwoFactorClient(userId)] else [])
    + [SignOut, SignIn(token.claimsPrincipal, token.authenticationProperties), AddTokenToHeaders(token.accessToken)]
  }

  /**
   * After calls that never remember a client, the sign-in calls remember it iff
   * asked, end the old session before starting the new one, and set the token.
   */
  lemma SignInCallsOrder(web: Collaborators, before: seq<Event>, userId: string, rememberMachine: bool)
    requires forall e :: e in before ==> !e.RememberTwoFactorClient?
    ensures var token := web.accessTokenFor(web.authenticate2Fa(userId));
            var calls := before + SignInCalls(web, userId, rememberMachine);
            && (RememberTwoFactorClient(userId) in calls <==> rememberMachine)
            && Before(calls, SignOut, SignIn(token.claimsPrincipal, token.authenticationProperties))
            && AddTokenToHeaders(token.accessToken) in calls
  {
    var token := web.accessTokenFor(web.authenticate2Fa(userId));
    var calls := before + SignInCalls(web, userId, rememberMachine);
    var signOutAt := |calls| - 3;
    assert calls[signOutAt] == SignOut;
    assert calls[signOutAt + 1] == SignIn(token.claimsPrincipal, token.authenticationProperties);
    assert calls[signOutAt + 2] == AddTokenToHeaders(token.accessToken);
    if rememberMachine {
      assert calls[|before| + 1] == RememberTwoFactorClient(userId);
    } else {
      assert calls == before + [Authenticate2Fa(userId), SignOut, calls[signOutAt + 1], calls[signOutAt + 2]];
    }
  }

  /**
   * `LoginWith2Fa` (POST). The typed code is sent without spaces and hyphens. A
   * verified code signs the user in again: the client is remembered exactly when
   * asked, the old session is ended before the new one starts, and the access
   * token goes into the API client's headers. A rejected code changes nothing.
   */
  method LoginWith2Fa(web: Collaborators, model: LoginWith2FaViewModel, modelStateValid: bool, returnUrl: Option<string>)
    returns (r: ActionResult, effects: seq<Event>)
    ensures !modelStateValid ==> r == ViewResult(None, []) && effects == []
    ensures modelStateValid && web.twoFactorUser.None? ==>
              r == Thrown(InvalidOperationException, NoTwoFactorUser) && effects == [GetTwoFactorAuthenticationUser]
    ensures modelStateValid && web.twoFactorUser.Some? ==>
              var userId := web.twoFactorUser.value;
              var request := VerifyTwoFactorModel(userId, TwoFactorCode.StripSpacesAndHyphens(model.twoFactorCode),
                                                  model.rememberMachine);
              var token := web.accessTokenFor(web.authenticate2Fa(userId));
              && |effects| >= 2 && effects[..2] == [GetTwoFactorAuthenticationUser, VerifyTwoFactorToken(request)]
              && (web.verifyTwoFactorToken(request) ==>
                    && effects == effects[..2] + SignInCalls(web, userId, model.rememberMachine)
                    && (RememberTwoFactorClient(userId) in effects <==> model.rememberMachine)
                    && Before(effects, SignOut, SignIn(token.claimsPrincipal, token.authenticationProperties))
                    && AddTokenToHeaders(token.accessToken) in effects
                    && r == LocalRedirectResult(returnUrl.GetOr(web.content(AppRoot))))
              && (!web.verifyTwoFactorToken(request) ==>
                    && effects == effects[..2]
                    && r == ViewResult(None, [ModelError("", InvalidAuthenticatorCode)]))
  {
    if !modelStateValid {
      return ViewResult(None, []), [];
    }
    effects := [GetTwoFactorAuthenticationUser];
    var userId := web.twoFactorUser;
    if userId.None? {
      return Thrown(InvalidOperationException, NoTwoFactorUser), effects;
    }
    var verify2FaToken := VerifyTwoFactorModel(userId.value, TwoFactorCode.StripSpacesAndHyphens(model.twoFactorCode),
                                               model.rememberMachine);
    effects := effects + [VerifyTwoFactorToken(verify2FaToken)];
    var verified := web.verifyTwoFactorToken(verify2FaToken);
    ghost var checkedCalls := effects;
    if verified {
      effects := effects + [Authenticate2Fa(userId.value)];
      var authenticatedUser := web.authenticate2Fa(userId.value);
      var accessTokenResult := web.accessTokenFor(authenticatedUser);
      if model.rememberMachine {
        effects := effects + [RememberTwoFactorClient(userId.value)];
      }
      // the session is replaced by one that carries the second factor
      effects := effects + [SignOut];
      effects := effects + [SignIn(accessTokenResult.claimsPrincipal, accessTokenResult.authenticationProperties)];
      effects := effects + [AddTokenToHeaders(accessTokenResult.accessToken)];
      assert effects == checkedCalls + SignInCalls(web, userId.value, model.rememberMachine);
      SignInCallsOrder(web, checkedCalls, userId.value, model.rememberMachine);
      var target := if returnUrl.Some? then returnUrl.value else web.content(AppRoot);
      return LocalRedirectResult(target), effects;
    }
    r := ViewResult(None, [ModelError("", InvalidAuthenticatorCode)]);
  }

  /**
   * `ResetPassword` (GET): the reset form, with the code decoded from the link; no
   * code is a bad request, and a code that is not valid base64url ends in the
   * decoder's `FormatException`.
   */
  function ResetPasswordForm(base64UrlDecodeUtf8: string -> Result<string, string>, userId: Option<string>, code: Option<string>)
    : (res: (ActionResult, Option<ResetPasswordModel>))
    ensures code.None? <==> res.0 == BadRequestResult(CodeRequired)
    ensures code.None? ==> res.1 == None
    ensures code.Some? && base64UrlDecodeUtf8(code.value).Err? ==>
              res == (Thrown(FormatException, base64UrlDecodeUtf8(code.value).error), None)
    ensures code.Some? && base64UrlDecodeUtf8(code.value).Ok? ==>
              && res.0 == ViewResult(None, [])
              && res.1 == Some(ResetPasswordModel(userId, base64UrlDecodeUtf8(code.value).value))
  {
    if code.None? then (BadRequestResult(CodeRequired), None)
    else
      match base64UrlDecodeUtf8(code.value)
      case Err(message) => (Thrown(FormatException, message), None)
      case Ok(decoded) => (ViewResult(None, []), Some(ResetPasswordModel(userId, decoded)))
  }
}
