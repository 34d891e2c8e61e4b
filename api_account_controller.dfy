/**
 * The anonymous endpoints of the API's `AccountController`: password recovery
 * that does not reveal which accounts exist, and the two-factor checks the web
 * front end forwards to the API.
 *
 * ASP.NET Core Identity's `UserManager` is a collaborator: its answers are
 * inputs (`UserManager`), and every call the controller makes on it, or on the
 * e-mail sender, is recorded, in order, in the returned `effects`. A thrown
 * exception is an `Err`. Nullable request fields are `Option`s.
 */
module ApiAccountController {
  import opened Wrappers

  datatype IdentityUser = IdentityUser(id: string, securityStamp: Option<string>)
  datatype IdentityError = IdentityError(code: string, description: string)
  datatype IdentityResult = IdentityResult(succeeded: bool, errors: seq<IdentityError>)

  /** What `UserManager<IdentityUser>` answers; its own state changes are not modelled. */
  datatype UserManager = UserManager(
    findByEmail: string -> Option<IdentityUser>,
    // the store is asked even for a null id, and finds no user for it
    findById: Option<string> -> Option<IdentityUser>,
    isEmailConfirmed: IdentityUser -> bool,
    generatePasswordResetToken: IdentityUser -> string,
    resetPassword: (IdentityUser, Option<string>, Option<string>) -> IdentityResult,
    redeemTwoFactorRecoveryCode: (IdentityUser, Option<string>) -> IdentityResult,
    verifyTwoFactorToken: (IdentityUser, string, Option<string>) -> bool,
    supportsUserSecurityStamp: bool)

  /** The encoding helpers the reset link is built with, left uninterpreted. */
  datatype WebHelpers = WebHelpers(
    // the token's UTF-8 bytes written in base64url (`WebEncoders.Base64UrlEncode`)
    base64UrlEncodeUtf8: string -> string,
    // the base URL with the parameters appended (`QueryHelpers.AddQueryString`), read
    // back through `Uri`; None when `Uri` rejects it (a relative or malformed base URL)
    addQueryString: (string, seq<(string, string)>) -> Option<string>,
    // HtmlEncoder.Default.Encode
    htmlEncode: string -> string)

  /** The calls made on the user store and the e-mail sender. */
  datatype Event =
    | FindByEmail(email: string)
    | IsEmailConfirmed(userId: string)
    | GeneratePasswordResetToken(userId: string)
    | SendEmail(to: string, subject: string, htmlMessage: string)
    | FindById(id: Option<string>)
    | RedeemTwoFactorRecoveryCode(userId: string, recoveryCode: Option<string>)
    | ResetPasswordCall(userId: string, token: Option<string>, newPassword: Option<string>)
    | VerifyTwoFactorTokenCall(userId: string, tokenProvider: string, code: Option<string>)

  /** The exceptions these endpoints can end in. */
  datatype Fault = ArgumentNullException(paramName: string) | NullReferenceException | UriFormatException

  datatype ForgotPasswordModel = ForgotPasswordModel(email: Option<string>, baseUrl: string)
  datatype RedeemTwoFactorRecoveryCodeModel =
    RedeemTwoFactorRecoveryCodeModel(userId: Option<string>, recoveryCode: Option<string>, succeeded: bool)
  datatype RememberClientModel =
    RememberClientModel(userId: Option<string>, securityStamp: Option<string>, supportsUserSecurityStamp: bool)
  datatype ResetPasswordModel = ResetPasswordModel(
    email: Option<string>, userId: Option<string>, resetCode: Option<string>, password: Option<string>,
    succeeded: bool, errors: seq<IdentityError>)
  datatype VerifyTwoFactorModel =
    VerifyTwoFactorModel(userId: Option<string>, code: Option<string>, rememberMachine: bool, verified: bool)

  const ResetPasswordSubject: string := "Reset Password"

  /** Identity's `TokenOptions.DefaultAuthenticatorProvider`, the value of `new TokenOptions().AuthenticatorTokenProvider`. */
  const AuthenticatorTokenProvider: string := "Authenticator"

  /** `new ResetPasswordModel { ... }` leaves every other property at its default. */
  const NewResetPasswordModel: ResetPasswordModel := ResetPasswordModel(None, None, None, None, false, [])

  /** The e-mails sent, in order. */
  function SentEmails(effects: seq<Event>): (emails: seq<Event>)
    ensures forall i :: 0 <= i < |emails| ==> emails[i].SendEmail? && emails[i] in effects
  {
    if effects == [] then []
    else (if effects[0].SendEmail? then [effects[0]] else []) + SentEmails(effects[1..])
  }

  /** The query parameters the reset link adds: exactly `userId` and `code`. */
  function ResetLinkParameters(userId: string, code: string): seq<(string, string)> {
    [("userId", userId), ("code", code)]
  }

  /** The text of the reset e-mail, for the reset link `callbackUrl`. */
  function ResetEmailMessage(web: WebHelpers, callbackUrl: string): string {
    "Please reset your password by <a href='" + web.htmlEncode(callbackUrl) + "'>clicking here</a>."
  }

  /** The reset link for `user` under `baseUrl`, or None when it is not a valid absolute URI. */
  function ResetLink(users: UserManager, web: WebHelpers, baseUrl: string, user: IdentityUser): Option<string> {
    var code := web.base64UrlEncodeUtf8(users.generatePasswordResetToken(user));
    web.addQueryString(baseUrl, ResetLinkParameters(user.id, code))
  }

  /** The reset e-mail a confirmed `user` is sent by `ForgotPassword`. */
  function ResetEmail(users: UserManager, web: WebHelpers, email: string, baseUrl: string, user: IdentityUser): Event
    requires ResetLink(users, web, baseUrl, user).Some?
  {
    SendEmail(email, ResetPasswordSubject, ResetEmailMessage(web, ResetLink(users, web, baseUrl, user).value))
  }

  /** Whether `ForgotPassword` goes on to send a reset link: the e-mail belongs to a confirmed account. */
  predicate SendsResetLink(users: UserManager, email: string) {
    users.findByEmail(email).Some? && users.isEmailConfirmed(users.findByEmail(email).value)
  }

  /**
   * `ForgotPassword`. Whether or not the account exists or is confirmed, the
   * reply is the request itself; only a confirmed account is sent a reset link.
   * A base URL that does not make an absolute URI ends in `UriFormatException`
   * after the token is generated, and nothing is sent.
   */
  method ForgotPassword(users: UserManager, web: WebHelpers, model: ForgotPasswordModel)
    returns (reply: Result<ForgotPasswordModel, Fault>, effects: seq<Event>)
    ensures model.email.None? ==> reply == Err(ArgumentNullException("email")) && effects == []
    ensures model.email.Some? ==> |effects| > 0 && effects[0] == FindByEmail(model.email.value)
    ensures model.email.Some? && !SendsResetLink(users, model.email.value) ==>
              reply == Ok(model) && forall e :: e in effects ==> !e.GeneratePasswordResetToken? && !e.SendEmail?
    ensures model.email.Some? && users.findByEmail(model.email.value).None? ==>
              effects == [FindByEmail(model.email.value)]
    ensures model.email.Some? && users.findByEmail(model.email.value).Some?
            && !users.isEmailConfirmed(users.findByEmail(model.email.value).value) ==>
              effects == [FindByEmail(model.email.value), IsEmailConfirmed(users.findByEmail(model.email.value).value.id)]
    ensures model.email.Some? && SendsResetLink(users, model.email.value) ==>
              var user := users.findByEmail(model.email.value).value;
              if ResetLink(users, web, model.baseUrl, user).None? then
                && reply == Err(UriFormatException)
                && effects == [FindByEmail(model.email.value), IsEmailConfirmed(user.id), GeneratePasswordResetToken(user.id)]
              else
                && reply == Ok(model)
                && effects == [FindByEmail(model.email.value), IsEmailConfirmed(user.id), GeneratePasswordResetToken(user.id),
                               ResetEmail(users, web, model.email.value, model.baseUrl, user)]
                && SentEmails(effects) == [ResetEmail(users, web, model.email.value, model.baseUrl, user)]
  {
    if model.email.None? {
      return Err(ArgumentNullException("email")), [];
    }
    var email := model.email.value;
    var user := users.findByEmail(email);
    if user.None? {
      // an unknown address gets the same reply as a known one
      return Ok(model), [FindByEmail(email)];
    }
    if !users.isEmailConfirmed(user.value) {
      // so does an unconfirmed account
      return Ok(model), [FindByEmail(email), IsEmailConfirmed(user.value.id)];
    }
    var checkedCalls := [FindByEmail(email), IsEmailConfirmed(user.value.id), GeneratePasswordResetToken(user.value.id)];
    var code := users.generatePasswordResetToken(user.value);
    code := web.base64UrlEncodeUtf8(code);
    var callbackUrl := web.addQueryString(model.baseUrl, ResetLinkParameters(user.value.id, code));
    if callbackUrl.None? {
      return Err(UriFormatException), checkedCalls;
    }
    var sent := SendEmail(email, ResetPasswordSubject, ResetEmailMessage(web, callbackUrl.value));
    assert sent == ResetEmail(users, web, email, model.baseUrl, user.value);
    OnlyEmailSent(checkedCalls, sent);
    effects := checkedCalls + [sent];
    reply := Ok(model);
  }

  /** After calls that send nothing, one e-mail more is the only one sent. */
  lemma OnlyEmailSent(calls: seq<Event>, sent: Event)
    requires forall e :: e in calls ==> !e.SendEmail?
    requires sent.SendEmail?
    ensures SentEmails(calls + [sent]) == [sent]
  {
    NoEmailsSent(calls);
    SentEmailsConcat(calls, [sent]);
    assert [sent][1..] == [];
  }

  lemma {:induction false} NoEmailsSent(effects: seq<Event>)
    requires forall e :: e in effects ==> !e.SendEmail?
    ensures SentEmails(effects) == []
  {
    if effects != [] {
      assert effects[0] in effects;
      NoEmailsSent(effects[1..]);
    }
  }

  lemma {:induction false} SentEmailsConcat(a: seq<Event>, b: seq<Event>)
    ensures SentEmails(a + b) == SentEmails(a) + SentEmails(b)
  {
    if a == [] {
      assert a + b == b;
    } else {
      var ab := a + b;
      assert ab[0] == a[0] && ab[1..] == a[1..] + b;
      SentEmailsConcat(a[1..], b);
      var first := if a[0].SendEmail? then [a[0]] else [];
      assert SentEmails(ab) == first + (SentEmails(a[1..]) + SentEmails(b));
      assert SentEmails(a) == first + SentEmails(a[1..]);
    }
  }

  /** `RedeemTwoFactorRecoveryCode`: `Succeeded` is the store's verdict, and false when no user is found. */
  method RedeemRecoveryCode(users: UserManager, model: RedeemTwoFactorRecoveryCodeModel)
    returns (reply: Result<RedeemTwoFactorRecoveryCodeModel, Fault>, effects: seq<Event>)
    ensures |effects| >= 1 && effects[0] == FindById(model.userId)
    ensures users.findById(model.userId).None? ==>
              reply == Ok(model.(succeeded := false)) && effects == [FindById(model.userId)]
    ensures users.findById(model.userId).Some? ==>
              var user := users.findById(model.userId).value;
              && reply == Ok(model.(succeeded := users.redeemTwoFactorRecoveryCode(user, model.recoveryCode).succeeded))
              && effects == [FindById(model.userId), RedeemTwoFactorRecoveryCode(user.id, model.recoveryCode)]
    ensures (exists e :: e in effects && e.RedeemTwoFactorRecoveryCode?) <==> users.findById(model.userId).Some?
  {
    effects := [FindById(model.userId)];
    var user := users.findById(model.userId);
    if user.None? {
      var m := model.(succeeded := false);
      return Ok(m), effects;
    }
    effects := effects + [RedeemTwoFactorRecoveryCode(user.value.id, model.recoveryCode)];
    assert effects[1] in effects;
    var result := users.redeemTwoFactorRecoveryCode(user.value, model.recoveryCode);
    var m := model.(succeeded := result.succeeded);
    reply := Ok(m);
  }

  /**
   * `RememberClient`: the user's security stamp and whether the store supports
   * stamps. The user is dereferenced without a check, so an id that finds no
   * user ends in a `NullReferenceException`.
   */
  method RememberClient(users: UserManager, model: RememberClientModel)
    returns (reply: Result<RememberClientModel, Fault>, effects: seq<Event>)
    ensures effects == [FindById(model.userId)]
    ensures users.findById(model.userId).None? <==> reply == Err(NullReferenceException)
    ensures users.findById(model.userId).Some? ==>
              reply == Ok(model.(supportsUserSecurityStamp := users.supportsUserSecurityStamp,
                                 securityStamp := users.findById(model.userId).value.securityStamp))
  {
    effects := [FindById(model.userId)];
    var user := users.findById(model.userId);
    var m := model.(supportsUserSecurityStamp := users.supportsUserSecurityStamp);
    if user.None? {
      return Err(NullReferenceException), effects;
    }
    m := m.(securityStamp := user.value.securityStamp);
    reply := Ok(m);
  }

  /**
   * `ResetPassword`. An unknown e-mail, or an e-mail whose account id is not the
   * one given, gets the same reply as a successful reset and no reset attempt.
   */
  method ResetPassword(users: UserManager, model: ResetPasswordModel)
    returns (reply: Result<ResetPasswordModel, Fault>, effects: seq<Event>)
    ensures model.email.None? ==> reply == Err(ArgumentNullException("email")) && effects == []
    ensures model.email.Some? ==> reply.Ok? && |effects| > 0 && effects[0] == FindByEmail(model.email.value)
    ensures model.email.Some?
            && (users.findByEmail(model.email.value).None? || Some(users.findByEmail(model.email.value).value.id) != model.userId) ==>
              reply == Ok(NewResetPasswordModel.(succeeded := true))
              && effects == [FindByEmail(model.email.value)]
              && forall e :: e in effects ==> !e.ResetPasswordCall?
    ensures model.email.Some? && users.findByEmail(model.email.value).Some?
            && Some(users.findByEmail(model.email.value).value.id) == model.userId ==>
              var user := users.findByEmail(model.email.value).value;
              var result := users.resetPassword(user, model.resetCode, model.password);
              && effects == [FindByEmail(model.email.value), ResetPasswordCall(user.id, model.resetCode, model.password)]
              && reply == Ok(if result.succeeded then NewResetPasswordModel.(succeeded := true)
                             else NewResetPasswordModel.(errors := result.errors))
  {
    if model.email.None? {
      return Err(ArgumentNullException("email")), [];
    }
    effects := [FindByEmail(model.email.value)];
    var user := users.findByEmail(model.email.value);
    if user.None? || Some(user.value.id) != model.userId {
      // an unknown address, or another account's id, is told the reset succeeded
      return Ok(NewResetPasswordModel.(succeeded := true)), effects;
    }
    effects := effects + [ResetPasswordCall(user.value.id, model.resetCode, model.password)];
    var result := users.resetPassword(user.value, model.resetCode, model.password);
    if result.succeeded {
      return Ok(NewResetPasswordModel.(succeeded := true)), effects;
    }
    reply := Ok(NewResetPasswordModel.(errors := result.errors));
  }

  /**
   * `VerifyTwoFactorToken`: `Verified` is the store's verdict on `Code` under the
   * authenticator provider; the other fields are returned as received. The user is
   * not checked first, and `UserManager` rejects a null user.
   */
  method VerifyTwoFactorToken(users: UserManager, model: VerifyTwoFactorModel)
    returns (reply: Result<VerifyTwoFactorModel, Fault>, effects: seq<Event>)
    ensures users.findById(model.userId).None? <==> reply == Err(ArgumentNullException("user"))
    ensures users.findById(model.userId).None? ==> effects == [FindById(model.userId)]
    ensures users.findById(model.userId).Some? ==>
              var user := users.findById(model.userId).value;
              && reply == Ok(model.(verified := users.verifyTwoFactorToken(user, AuthenticatorTokenProvider, model.code)))
              && effects == [FindById(model.userId), VerifyTwoFactorTokenCall(user.id, AuthenticatorTokenProvider, model.code)]
  {
    effects := [FindById(model.userId)];
    var user := users.findById(model.userId);
    if user.None? {
      return Err(ArgumentNullException("user")), effects;
    }
    effects := effects + [VerifyTwoFactorTokenCall(user.value.id, AuthenticatorTokenProvider, model.code)];
    var verified := users.verifyTwoFactorToken(user.value, AuthenticatorTokenProvider, model.code);
    reply := Ok(model.(verified := verified));
  }
}
