/**
 * `TokenOptions`: the issuer, audience, signing key and lifetime used to mint the
 * JSON Web Tokens, as built and checked by its two constructors, and the cookie
 * name `TokenConstants.TokenName`.
 *
 * A constructor that throws is modelled as `Err(exception)`; one that returns
 * as `Ok(options)`. The properties are get-only, so an options value never changes
 * after construction.
 */
module JwtTokenOptions {
  import opened Wrappers
  import opened DotNetText

  const DefaultExpiryTimeInMinutes: Int32 := 5

  /** `TokenConstants.TokenName`. */
  const TokenName: string := "access_token"

  const AudienceMandatory: string := "Audience is mandatory in order to generate a JWT!"
  const IssuerMandatory: string := "Issuer is mandatory in order to generate a JWT!"
  const SigningKeyMandatory: string := "SigningKey is mandatory in order to generate a JWT!"

  type byte = x: int | 0 <= x < 256

  /**
   * The exceptions construction can end in. The guards call the one-string
   * `ArgumentNullException` constructor, whose argument is the parameter name, so
   * the guard's text is carried there. `Encoding.ASCII.GetBytes(null)` throws
   * `ArgumentNullException` for its parameter `s`; `SymmetricSecurityKey` rejects a
   * key of zero bytes with an `ArgumentException`.
   */
  datatype ConstructionError =
    | ArgumentNullException(paramName: string)
    | EmptyKeyArgumentException

  datatype TokenOptions = TokenOptions(
    issuer: string,
    audience: string,
    signingKey: seq<byte>,
    tokenExpiryInMinutes: Int32)

  /** The byte `Encoding.ASCII` writes for one character: itself when ASCII, else `?`. */
  function AsciiByte(c: char): byte {
    if c as int < 128 then c as int else '?' as int
  }

  /** `Encoding.ASCII.GetBytes`: one byte per character. */
  function AsciiBytes(s: string): seq<byte> {
    seq(|s|, i requires 0 <= i < |s| => AsciiByte(s[i]))
  }

  /** `Encoding.ASCII.GetString` on bytes below 128. */
  function AsciiString(b: seq<byte>): string
    requires forall i :: 0 <= i < |b| ==> b[i] < 128
  {
    seq(|b|, i requires 0 <= i < |b| => b[i] as char)
  }

  predicate IsAscii(s: string) {
    forall i :: 0 <= i < |s| ==> s[i] as int < 128
  }

  /**
   * `new TokenOptions(issuer, audience, signingKey, tokenExpiryInMinutes)`, as written:
   * the third guard names SigningKey but tests `issuer` again.
   */
  function Create(issuer: Option<string>, audience: Option<string>, signingKey: Option<string>,
                  tokenExpiryInMinutes: Int32): (r: Result<TokenOptions, ConstructionError>)
    // audience is checked first, so it is the error reported when both are blank
    ensures IsNullOrWhiteSpace(audience) ==> r == Err(ArgumentNullException(AudienceMandatory))
    ensures !IsNullOrWhiteSpace(audience) && IsNullOrWhiteSpace(issuer) ==>
              r == Err(ArgumentNullException(IssuerMandatory))
    // the guard that names SigningKey can never fire
    ensures r != Err(ArgumentNullException(SigningKeyMandatory))
    // then a null key, and then an empty one, fail in the key's construction
    ensures !IsNullOrWhiteSpace(audience) && !IsNullOrWhiteSpace(issuer) && signingKey.None? ==>
              r == Err(ArgumentNullException("s"))
    ensures !IsNullOrWhiteSpace(audience) && !IsNullOrWhiteSpace(issuer) && signingKey == Some([]) ==>
              r == Err(EmptyKeyArgumentException)
    ensures r.Ok? <==> !IsNullOrWhiteSpace(audience) && !IsNullOrWhiteSpace(issuer)
                       && signingKey.Some? && signingKey.value != []
    ensures r.Ok? ==> issuer.Some? && audience.Some? && signingKey.Some?
    ensures r.Ok? ==> r.value == TokenOptions(issuer.value, audience.value,
                                              AsciiBytes(signingKey.value), tokenExpiryInMinutes)
  {
    if IsNullOrWhiteSpace(audience) then Err(ArgumentNullException(AudienceMandatory))
    else if IsNullOrWhiteSpace(issuer) then Err(ArgumentNullException(IssuerMandatory))
    else if IsNullOrWhiteSpace(issuer) then Err(ArgumentNullException(SigningKeyMandatory))
    else if signingKey.None? then Err(ArgumentNullException("s"))
    else if signingKey.value == [] then Err(EmptyKeyArgumentException)
    else Ok(TokenOptions(issuer.value, audience.value, AsciiBytes(signingKey.value), tokenExpiryInMinutes))
  }

  /**
   * Options built from an ASCII signing key hold one byte per character, and those
   * bytes decode back to the key given.
   */
  lemma CreateKeepsAsciiKey(issuer: Option<string>, audience: Option<string>, signingKey: string, n: Int32)
    requires IsAscii(signingKey)
    requires Create(issuer, audience, Some(signingKey), n).Ok?
    ensures |Create(issuer, audience, Some(signingKey), n).value.signingKey| == |signingKey|
    ensures AsciiString(Create(issuer, audience, Some(signingKey), n).value.signingKey) == signingKey
  {
    var b := Create(issuer, audience, Some(signingKey), n).value.signingKey;
    assert forall i :: 0 <= i < |b| ==> b[i] == signingKey[i] as int;
  }

  /** `new TokenOptions(issuer, audience, signingKey)`: the optional lifetime left at its default. */
  function CreateWithDefaultExpiry(issuer: Option<string>, audience: Option<string>,
                                   signingKey: Option<string>): (r: Result<TokenOptions, ConstructionError>)
    ensures r.Ok? ==> issuer.Some? && audience.Some? && signingKey.Some?
    ensures r.Ok? ==> r.value.issuer == issuer.value && r.value.audience == audience.value
                      && r.value.signingKey == AsciiBytes(signingKey.value)
    ensures r.Ok? ==> r.value.tokenExpiryInMinutes == 5
    ensures forall e: Int32 {:trigger Create(issuer, audience, signingKey, e)} ::
              r.Err? <==> Create(issuer, audience, signingKey, e).Err?
  {
    Create(issuer, audience, signingKey, DefaultExpiryTimeInMinutes)
  }

  /**
   * `new TokenOptions(issuer, audience, signingKey, string tokenExpiryInMinutes)`:
   * chains to the constructor with the default lifetime, then overrides the
   * lifetime only when the text is not blank and parses as an `int`.
   */
  function CreateWithExpiryText(issuer: Option<string>, audience: Option<string>, signingKey: Option<string>,
                                tokenExpiryInMinutes: Option<string>): (r: Result<TokenOptions, ConstructionError>)
    // the same guards, and the same exception, as the chained constructor
    ensures r.Err? <==> CreateWithDefaultExpiry(issuer, audience, signingKey).Err?
    ensures r.Err? ==> r == CreateWithDefaultExpiry(issuer, audience, signingKey)
    ensures r.Ok? ==> r.value.issuer == issuer.value && r.value.audience == audience.value
                      && r.value.signingKey == AsciiBytes(signingKey.value)
    ensures r.Ok? && !IsNullOrWhiteSpace(tokenExpiryInMinutes) && TryParseInt32(tokenExpiryInMinutes).Some? ==>
              r.value.tokenExpiryInMinutes == TryParseInt32(tokenExpiryInMinutes).value
    ensures r.Ok? && (IsNullOrWhiteSpace(tokenExpiryInMinutes) || TryParseInt32(tokenExpiryInMinutes).None?) ==>
              r.value.tokenExpiryInMinutes == DefaultExpiryTimeInMinutes
  {
    match CreateWithDefaultExpiry(issuer, audience, signingKey)
    case Err(e) => Err(e)
    case Ok(options) =>
      if !IsNullOrWhiteSpace(tokenExpiryInMinutes) && TryParseInt32(tokenExpiryInMinutes).Some?
      then Ok(options.(tokenExpiryInMinutes := TryParseInt32(tokenExpiryInMinutes).value))
      else Ok(options)
  }

  /** The lifetime plays no part in whether the constructor fails, nor in the other fields. */
  lemma CreateIgnoresExpiryInChecks(issuer: Option<string>, audience: Option<string>, signingKey: Option<string>,
                                    n: Int32, m: Int32)
    ensures Create(issuer, audience, signingKey, n).Err? ==>
              Create(issuer, audience, signingKey, n) == Create(issuer, audience, signingKey, m)
    ensures Create(issuer, audience, signingKey, n).Ok? ==>
              Create(issuer, audience, signingKey, m).Ok?
              && Create(issuer, audience, signingKey, n)
                 == Ok(Create(issuer, audience, signingKey, m).value.(tokenExpiryInMinutes := n))
  {
  }

  /** A number written out is not blank, and reads back as itself. */
  lemma FormattedExpiryParses(n: Int32)
    ensures !IsNullOrWhiteSpace(Some(FormatInt32(n)))
    ensures TryParseInt32(Some(FormatInt32(n))) == Some(n)
  {
    TryParseFormat(n);
    FormattedNotBlank(n);
  }

  /**
   * Any lifetime written out as a number, negative or zero included, gives what the
   * `int` constructor gives for that number, failures included.
   */
  lemma ExpiryTextTakesEveryInt(issuer: Option<string>, audience: Option<string>, signingKey: Option<string>, n: Int32)
    ensures CreateWithExpiryText(issuer, audience, signingKey, Some(FormatInt32(n)))
            == Create(issuer, audience, signingKey, n)
  {
    FormattedExpiryParses(n);
    CreateIgnoresExpiryInChecks(issuer, audience, signingKey, n, DefaultExpiryTimeInMinutes);
    assert CreateWithDefaultExpiry(issuer, audience, signingKey) == Create(issuer, audience, signingKey, DefaultExpiryTimeInMinutes);
  }

  /** There is no lower bound on the lifetime: a zero or negative `int` is kept as given. */
  lemma NoLowerBoundOnExpiry(issuer: string, audience: string, signingKey: string, n: Int32)
    requires !IsNullOrWhiteSpace(Some(issuer)) && !IsNullOrWhiteSpace(Some(audience)) && signingKey != []
    requires n <= 0
    ensures Create(Some(issuer), Some(audience), Some(signingKey), n).Ok?
    ensures Create(Some(issuer), Some(audience), Some(signingKey), n).value.tokenExpiryInMinutes == n
    ensures CreateWithExpiryText(Some(issuer), Some(audience), Some(signingKey), Some(FormatInt32(n))).value.tokenExpiryInMinutes == n
  {
    ExpiryTextTakesEveryInt(Some(issuer), Some(audience), Some(signingKey), n);
  }

  /** A signing key of white space only passes every guard of the constructor as written. */
  lemma BlankSigningKeyAccepted()
    ensures Create(Some("https://pegasus.example"), Some("pegasus-api"), Some(" "), 5).Ok?
  {
    assert !IsNullOrWhiteSpace(Some("pegasus-api")) by {
      assert !IsWhiteSpace("pegasus-api"[0]);
    }
    assert !IsNullOrWhiteSpace(Some("https://pegasus.example")) by {
      assert !IsWhiteSpace("https://pegasus.example"[0]);
    }
  }

  /** The constructor as its SigningKey message intends: the third guard tests `signingKey`. */
  function CreateIntended(issuer: Option<string>, audience: Option<string>, signingKey: Option<string>,
                          tokenExpiryInMinutes: Int32): (r: Result<TokenOptions, ConstructionError>)
    ensures !IsNullOrWhiteSpace(audience) && !IsNullOrWhiteSpace(issuer) && IsNullOrWhiteSpace(signingKey) ==>
              r == Err(ArgumentNullException(SigningKeyMandatory))
    ensures r.Ok? ==> !IsNullOrWhiteSpace(signingKey)
    // wherever the signing key is not blank it agrees with the constructor as written
    ensures !IsNullOrWhiteSpace(signingKey) ==> r == Create(issuer, audience, signingKey, tokenExpiryInMinutes)
  {
    if IsNullOrWhiteSpace(audience) then Err(ArgumentNullException(AudienceMandatory))
    else if IsNullOrWhiteSpace(issuer) then Err(ArgumentNullException(IssuerMandatory))
    else if IsNullOrWhiteSpace(signingKey) then Err(ArgumentNullException(SigningKeyMandatory))
    else Ok(TokenOptions(issuer.value, audience.value, AsciiBytes(signingKey.value), tokenExpiryInMinutes))
  }
}
