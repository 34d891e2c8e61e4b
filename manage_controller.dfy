/**
 * The web front end's `ManageController`: account details and two-factor set-up.
 *
 * `IManageEndpoint` (the API) is a collaborator: its answers are inputs
 * (`ManageEndpoint`), and every call on it is recorded, in order, in the
 * returned `effects`. `userName` is `User.Identity.Name` of the signed-in user.
 * A model the action changes and then shows is returned as `shown`.
 */
module ManageController {
  import opened Wrappers
  import opened Mvc
  import TwoFactorCode

  datatype UserDetailsModel = UserDetailsModel(displayName: Option<string>, errors: seq<string>, statusMessage: Option<string>)
  datatype TwoFactorAuthenticationModel = TwoFactorAuthenticationModel(
    hasAuthenticator: bool, recoveryCodesLeft: int, is2FaEnabled: bool, isMachineRemembered: bool,
    statusMessage: Option<string>, userId: Option<string>)
  datatype EnableAuthenticatorModel = EnableAuthenticatorModel(
    code: string, sharedKey: Option<string>, authenticatorUri: Option<string>,
    statusMessage: Option<string>, recoveryCodes: Option<seq<string>>)
  datatype AuthenticatorKeyModel = AuthenticatorKeyModel(sharedKey: string, authenticatorUri: string)
  datatype VerifyTwoFactorTokenModel = VerifyTwoFactorTokenModel(email: string, verificationCode: string)
  datatype SetTwoFactorEnabledModel = SetTwoFactorEnabledModel(email: string, enabled: bool)
  datatype SetTwoFactorEnabledReply = SetTwoFactorEnabledReply(succeeded: bool, userId: string)
  datatype RecoveryCodeStatusModel = RecoveryCodeStatusModel(neededReset: bool, recoveryCodes: seq<string>)
  datatype TwoFactorEnabledReply = TwoFactorEnabledReply(enabled: bool, userId: string)
  datatype ShowRecoveryCodesModel = ShowRecoveryCodesModel(recoveryCodes: Option<seq<string>>, statusMessage: Option<string>)

  datatype ManageEndpoint = ManageEndpoint(
    setUserDetails: UserDetailsModel -> UserDetailsModel,
    loadSharedKeyAndQrCodeUri: string -> AuthenticatorKeyModel,
    // VerifyTwoFactorTokenAsync(...).Is2FaTokenValid
    verifyTwoFactorToken: VerifyTwoFactorTokenModel -> bool,
    setTwoFactorEnabled: SetTwoFactorEnabledModel -> SetTwoFactorEnabledReply,
    checkRecoveryCodesStatus: string -> RecoveryCodeStatusModel,
    getTwoFactorEnabled: string -> TwoFactorEnabledReply,
    // GenerateNewRecoveryCodesAsync(...).RecoveryCodes
    generateNewRecoveryCodes: string -> seq<string>)

  datatype Event =
    | SetUserDetails(model: UserDetailsModel)
    | ForgetTwoFactorClient(userName: string)
    | LoadSharedKeyAndQrCodeUri(userName: string)
    | VerifyTwoFactorToken(verification: VerifyTwoFactorTokenModel)
    | SetTwoFactorEnabled(setting: SetTwoFactorEnabledModel)
    | CheckRecoveryCodesStatus(email: string)
    | GetTwoFactorEnabled(userName: string)
    | GenerateNewRecoveryCodes(userName: string)

  const DetailsNotUpdated: string := "Details were not updated."
  const DetailsUpdated: string := "User details were updated."
  const BrowserForgotten: string :=
    "The current browser has been forgotten. When you login again from this browser you will be prompted for your 2fa code."
  const CodeInvalid: string := "Verification code is invalid."
  const AuthenticatorVerified: string := "Your authenticator app has been verified."
  const TwoFactorDisabled: string := "2fa has been disabled. You can reenable 2fa when you setup an authenticator app"
  const CodesGenerated: string := "You have generated new recovery codes."

  // ---------------------------------------------------------------- Index (POST)

  /** Each error followed by the line terminator, in order: what the `AppendLine` calls add. */
  function ErrorLines(errors: seq<string>, newLine: string): string {
    if errors == [] then ""
    else ErrorLines(errors[..|errors| - 1], newLine) + errors[|errors| - 1] + newLine
  }

  /**
   * The `StringBuilder` loop of `Index` (POST): the header, then every error
   * with a line terminator (`Environment.NewLine`, a parameter here) after it.
   */
  method NotUpdatedMessage(errors: seq<string>, newLine: string) returns (message: string)
    ensures message == DetailsNotUpdated + ErrorLines(errors, newLine)
  {
    message := DetailsNotUpdated;
    var i := 0;
    while i < |errors|
      invariant 0 <= i <= |errors|
      invariant message == DetailsNotUpdated + ErrorLines(errors[..i], newLine)
    {
      assert errors[..i + 1][..i] == errors[..i];
      message := message + errors[i] + newLine;
      i := i + 1;
    }
    assert errors[..|errors|] == errors;
  }

  lemma {:induction false} ErrorLinesConcat(a: seq<string>, b: seq<string>, newLine: string)
    ensures ErrorLines(a + b, newLine) == ErrorLines(a, newLine) + ErrorLines(b, newLine)
  {
    if b == [] {
      assert a + b == a;
    } else {
      var b' := b[..|b| - 1];
      assert (a + b)[..|a + b| - 1] == a + b';
      ErrorLinesConcat(a, b', newLine);
    }
  }

  /** The `k`-th error and a line terminator come right after the lines of the errors before it. */
  lemma ErrorLineAt(errors: seq<string>, newLine: string, k: nat)
    requires k < |errors|
    ensures var at := |ErrorLines(errors[..k], newLine)|;
            var line := errors[k] + newLine;
            at + |line| <= |ErrorLines(errors, newLine)|
            && ErrorLines(errors, newLine)[at..at + |line|] == line
  {
    assert errors == errors[..k] + ([errors[k]] + errors[k + 1..]);
    ErrorLinesConcat(errors[..k], [errors[k]] + errors[k + 1..], newLine);
    ErrorLinesConcat([errors[k]], errors[k + 1..], newLine);
    assert ErrorLines([errors[k]], newLine) == errors[k] + newLine by {
      assert [errors[k]][..0] == [];
    }
  }

  /** `Index` (POST): saves the details, then reports either success or every error. */
  method Index(endpoint: ManageEndpoint, model: UserDetailsModel, newLine: string)
    returns (r: ActionResult, shown: UserDetailsModel, effects: seq<Event>)
    ensures effects == [SetUserDetails(model)]
    ensures r == ViewResult(None, [])
    ensures var updated := endpoint.setUserDetails(model);
            && (|updated.errors| > 0 ==>
                  shown == updated.(statusMessage := Some(DetailsNotUpdated + ErrorLines(updated.errors, newLine))))
            && (|updated.errors| == 0 ==> shown == updated.(statusMessage := Some(DetailsUpdated)))
  {
    effects := [SetUserDetails(model)];
    var updated := endpoint.setUserDetails(model);
    if |updated.errors| > 0 {
      var statusMessage := NotUpdatedMessage(updated.errors, newLine);
      return ViewResult(None, []), updated.(statusMessage := Some(statusMessage)), effects;
    }
    r, shown := ViewResult(None, []), updated.(statusMessage := Some(DetailsUpdated));
  }

  // ---------------------------------------------------- TwoFactorAuthentication (POST)

  /** `TwoFactorAuthentication` (POST): asks the API to forget this browser, then shows it as not remembered. */
  method TwoFactorAuthentication(endpoint: ManageEndpoint, model: TwoFactorAuthenticationModel, userName: string)
    returns (r: ActionResult, shown: TwoFactorAuthenticationModel, effects: seq<Event>)
    ensures effects == [ForgetTwoFactorClient(userName)]
    ensures shown == model.(statusMessage := Some(BrowserForgotten), isMachineRemembered := false)
    ensures r == ViewResult(None, [])
  {
    effects := [ForgetTwoFactorClient(userName)];
    shown := model.(statusMessage := Some(BrowserForgotten));
    shown := shown.(isMachineRemembered := false);
    r := ViewResult(None, []);
  }

  // ------------------------------------------------------- EnableAuthenticator (POST)

  /** Where `EnableAuthenticator` (POST) goes once 2FA is on: the recovery codes only when they need a reset. */
  function RedirectAfterEnable(status: RecoveryCodeStatusModel): (r: ActionResult)
    ensures status.neededReset <==> r == RedirectToActionResult("ShowRecoveryCodes", None, NoRouteValues)
    ensures !status.neededReset <==> r == RedirectToActionResult("TwoFactorAuthentication", None, NoRouteValues)
  {
    if status.neededReset then RedirectToActionResult("ShowRecoveryCodes", None, NoRouteValues)
    else RedirectToActionResult("TwoFactorAuthentication", None, NoRouteValues)
  }

  /** `model` with the shared key and QR-code URI just loaded for `userName`. */
  function WithKey(model: EnableAuthenticatorModel, key: AuthenticatorKeyModel): EnableAuthenticatorModel {
    model.(sharedKey := Some(key.sharedKey), authenticatorUri := Some(key.authenticatorUri))
  }

  /**
   * `EnableAuthenticator` (POST). An invalid form or a rejected code shows the key
   * again and never turns 2FA on; the code is checked without spaces and hyphens;
   * a valid code turns 2FA on for the signed-in user and then redirects.
   */
  method EnableAuthenticator(endpoint: ManageEndpoint, model: EnableAuthenticatorModel, modelStateValid: bool, userName: string)
    returns (r: ActionResult, shown: EnableAuthenticatorModel, effects: seq<Event>)
    ensures !modelStateValid ==>
              && effects == [LoadSharedKeyAndQrCodeUri(userName)]
              && shown == WithKey(model, endpoint.loadSharedKeyAndQrCodeUri(userName))
              && r == ViewResult(None, [])
    ensures modelStateValid ==>
              var request := VerifyTwoFactorTokenModel(userName, TwoFactorCode.StripSpacesAndHyphens(model.code));
              var status := endpoint.checkRecoveryCodesStatus(userName);
              && |effects| >= 2 && effects[0] == VerifyTwoFactorToken(request)
              && (!endpoint.verifyTwoFactorToken(request) ==>
                    && effects == [VerifyTwoFactorToken(request), LoadSharedKeyAndQrCodeUri(userName)]
                    && shown == WithKey(model, endpoint.loadSharedKeyAndQrCodeUri(userName))
                    && r == ViewResult(None, [ModelError("Input.Code", CodeInvalid)]))
              && (endpoint.verifyTwoFactorToken(request) ==>
                    && effects == [VerifyTwoFactorToken(request), SetTwoFactorEnabled(SetTwoFactorEnabledModel(userName, true)),
                                   CheckRecoveryCodesStatus(userName)]
                    && shown == model.(statusMessage := Some(AuthenticatorVerified),
                                       recoveryCodes := if status.neededReset then Some(status.recoveryCodes)
                                                        else model.recoveryCodes)
                    && r == RedirectAfterEnable(status))
    ensures forall e :: e in effects && e.SetTwoFactorEnabled? ==>
              modelStateValid && e.setting == SetTwoFactorEnabledModel(userName, true)
  {
    if !modelStateValid {
      var authenticatorKey := endpoint.loadSharedKeyAndQrCodeUri(userName);
      return ViewResult(None, []), WithKey(model, authenticatorKey), [LoadSharedKeyAndQrCodeUri(userName)];
    }
    // the code is compared without its separators
    var verificationCode := TwoFactorCode.StripSpacesAndHyphens(model.code);
    var verifyTwoFactorTokenModel := VerifyTwoFactorTokenModel(userName, verificationCode);
    effects := [VerifyTwoFactorToken(verifyTwoFactorTokenModel)];
    var is2FaTokenValid := endpoint.verifyTwoFactorToken(verifyTwoFactorTokenModel);
    if !is2FaTokenValid {
      effects := effects + [LoadSharedKeyAndQrCodeUri(userName)];
      var authenticatorKey := endpoint.loadSharedKeyAndQrCodeUri(userName);
      return ViewResult(None, [ModelError("Input.Code", CodeInvalid)]), WithKey(model, authenticatorKey), effects;
    }
    effects := effects + [SetTwoFactorEnabled(SetTwoFactorEnabledModel(userName, true))];
    shown := model.(statusMessage := Some(AuthenticatorVerified));
    effects := effects + [CheckRecoveryCodesStatus(userName)];
    var recoveryCodeStatus := endpoint.checkRecoveryCodesStatus(userName);
    if recoveryCodeStatus.neededReset {
      shown := shown.(recoveryCodes := Some(recoveryCodeStatus.recoveryCodes));
    }
    r := RedirectAfterEnable(recoveryCodeStatus);
  }

  // ------------------------------------------------------------- ShowRecoveryCodes

  /** `ShowRecoveryCodes` (GET): with no codes to show, back to the two-factor page. */
  function ShowRecoveryCodes(model: ShowRecoveryCodesModel): (r: ActionResult)
    ensures (model.recoveryCodes.None? || model.recoveryCodes.value == []) <==>
            r == RedirectToActionResult("TwoFactorAuthentication", None, NoRouteValues)
    ensures r != RedirectToActionResult("TwoFactorAuthentication", None, NoRouteValues) ==> r == ViewResult(None, [])
  {
    if model.recoveryCodes.None? || |model.recoveryCodes.value| == 0
    then RedirectToActionResult("TwoFactorAuthentication", None, NoRouteValues)
    else ViewResult(None, [])
  }

  /** The `ShowRecoveryCodesModel` that model binding builds from the route values of a redirect to it. */
  function BoundShowRecoveryCodesModel(routeValues: RouteValues): ShowRecoveryCodesModel {
    match routeValues
    case RecoveryCodesValues(codes, status) => ShowRecoveryCodesModel(Some(codes), status)
    case StatusMessageValue(status) => ShowRecoveryCodesModel(None, status)
    case _ => ShowRecoveryCodesModel(None, None)
  }

  /**
   * As written, the codes that needed showing are stored on a model that is then
   * discarded: the redirect carries none, so `ShowRecoveryCodes` sends the user on
   * to the two-factor page without ever showing them.
   */
  lemma RecoveryCodesLostAfterEnable(status: RecoveryCodeStatusModel)
    requires status.neededReset && status.recoveryCodes != []
    ensures RedirectAfterEnable(status) == RedirectToActionResult("ShowRecoveryCodes", None, NoRouteValues)
    ensures ShowRecoveryCodes(BoundShowRecoveryCodesModel(RedirectAfterEnable(status).routeValues))
            == RedirectToActionResult("TwoFactorAuthentication", None, NoRouteValues)
  {
  }

  /**
   * The redirect as evidently intended: the codes that need showing travel with it,
   * as they do in the redirect of `GenerateRecoveryCodes` (POST), so they are shown.
   */
  function RedirectAfterEnableIntended(status: RecoveryCodeStatusModel): (r: ActionResult)
    ensures !status.neededReset ==> r == RedirectAfterEnable(status)
    ensures status.neededReset && status.recoveryCodes != [] ==>
              r.RedirectToActionResult? && r.actionName == "ShowRecoveryCodes"
              && BoundShowRecoveryCodesModel(r.routeValues).recoveryCodes == Some(status.recoveryCodes)
              && ShowRecoveryCodes(BoundShowRecoveryCodesModel(r.routeValues)) == ViewResult(None, [])
  {
    if status.neededReset
    then RedirectToActionResult("ShowRecoveryCodes", None, RecoveryCodesValues(status.recoveryCodes, None))
    else RedirectToActionResult("TwoFactorAuthentication", None, NoRouteValues)
  }

  // ------------------------------------------------ Disable2Fa and GenerateRecoveryCodes

  function NotEnabledToDisable(userId: string): string {
    "Cannot disable 2FA for user with ID '" + userId + "' as it's not currently enabled."
  }

  function DisableFailed(userId: string): string {
    "Unexpected error occurred disabling 2FA for user with ID '" + userId + "'."
  }

  function NotEnabledToGenerate(userId: string): string {
    "Cannot generate recovery codes for user with ID '" + userId + "' because they do not have 2FA enabled."
  }

  function NotEnabledToGeneratePost(userId: string): string {
    "Cannot generate recovery codes for user with ID '" + userId + "' as they do not have 2FA enabled."
  }

  /** `Disable2Fa` (GET): refuses, by throwing, unless 2FA is on. */
  method Disable2FaForm(endpoint: ManageEndpoint, userName: string) returns (r: ActionResult, effects: seq<Event>)
    ensures effects == [GetTwoFactorEnabled(userName)]
    ensures var reply := endpoint.getTwoFactorEnabled(userName);
            && (!reply.enabled <==> r == Thrown(InvalidOperationException, NotEnabledToDisable(reply.userId)))
            && (reply.enabled ==> r == ViewResult(None, []))
  {
    effects := [GetTwoFactorEnabled(userName)];
    var response := endpoint.getTwoFactorEnabled(userName);
    if !response.enabled {
      return Thrown(InvalidOperationException, NotEnabledToDisable(response.userId)), effects;
    }
    r := ViewResult(None, []);
  }

  /** `Disable2Fa` (POST): turns 2FA off (`Enabled` left false) and throws if the API reports failure. */
  method Disable2Fa(endpoint: ManageEndpoint, userName: string) returns (r: ActionResult, effects: seq<Event>)
    ensures effects == [SetTwoFactorEnabled(SetTwoFactorEnabledModel(userName, false))]
    ensures var reply := endpoint.setTwoFactorEnabled(SetTwoFactorEnabledModel(userName, false));
            && (!reply.succeeded <==> r == Thrown(InvalidOperationException, DisableFailed(reply.userId)))
            && (reply.succeeded ==>
                  r == RedirectToActionResult("TwoFactorAuthentication", Some("Manage"), StatusMessageValue(Some(TwoFactorDisabled))))
  {
    var setTwoFactorEnabled := SetTwoFactorEnabledModel(userName, false);
    effects := [SetTwoFactorEnabled(setTwoFactorEnabled)];
    var disable2FaResult := endpoint.setTwoFactorEnabled(setTwoFactorEnabled);
    if !disable2FaResult.succeeded {
      return Thrown(InvalidOperationException, DisableFailed(disable2FaResult.userId)), effects;
    }
    r := RedirectToActionResult("TwoFactorAuthentication", Some("Manage"), StatusMessageValue(Some(TwoFactorDisabled)));
  }

  /** `GenerateRecoveryCodes` (GET): refuses, by throwing, unless 2FA is on. */
  method GenerateRecoveryCodesForm(endpoint: ManageEndpoint, userName: string) returns (r: ActionResult, effects: seq<Event>)
    ensures effects == [GetTwoFactorEnabled(userName)]
    ensures var reply := endpoint.getTwoFactorEnabled(userName);
            && (!reply.enabled <==> r == Thrown(InvalidOperationException, NotEnabledToGenerate(reply.userId)))
            && (reply.enabled ==> r == ViewResult(None, []))
  {
    effects := [GetTwoFactorEnabled(userName)];
    var response := endpoint.getTwoFactorEnabled(userName);
    if !response.enabled {
      return Thrown(InvalidOperationException, NotEnabledToGenerate(response.userId)), effects;
    }
    r := ViewResult(None, []);
  }

  /**
   * `GenerateRecoveryCodes` (POST): new codes are generated only after the check
   * that 2FA is on has passed, and the redirect carries them to `ShowRecoveryCodes`.
   */
  method GenerateRecoveryCodes(endpoint: ManageEndpoint, userName: string) returns (r: ActionResult, effects: seq<Event>)
    ensures var reply := endpoint.getTwoFactorEnabled(userName);
            var codes := endpoint.generateNewRecoveryCodes(userName);
            && (!reply.enabled ==>
                  effects == [GetTwoFactorEnabled(userName)]
                  && r == Thrown(InvalidOperationException, NotEnabledToGeneratePost(reply.userId)))
            && (reply.enabled ==>
                  && effects == [GetTwoFactorEnabled(userName), GenerateNewRecoveryCodes(userName)]
                  && Before(effects, GetTwoFactorEnabled(userName), GenerateNewRecoveryCodes(userName))
                  && r == RedirectToActionResult("ShowRecoveryCodes", None, RecoveryCodesValues(codes, Some(CodesGenerated)))
                  && (codes != [] ==> ShowRecoveryCodes(BoundShowRecoveryCodesModel(r.routeValues)) == ViewResult(None, [])))
    ensures GenerateNewRecoveryCodes(userName) in effects <==> endpoint.getTwoFactorEnabled(userName).enabled
  {
    effects := [GetTwoFactorEnabled(userName)];
    var response := endpoint.getTwoFactorEnabled(userName);
    if !response.enabled {
      return Thrown(InvalidOperationException, NotEnabledToGeneratePost(response.userId)), effects;
    }
    effects := effects + [GenerateNewRecoveryCodes(userName)];
    var recoveryCodes := endpoint.generateNewRecoveryCodes(userName);
    var showRecoveryCodes := RecoveryCodesValues(recoveryCodes, Some(CodesGenerated));
    assert effects[0] == GetTwoFactorEnabled(userName) && effects[1] == GenerateNewRecoveryCodes(userName);
    r := RedirectToActionResult("ShowRecoveryCodes", None, showRecoveryCodes);
  }
}
