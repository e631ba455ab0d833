/** Credential selection and response handling of the Pinata upload helper. */
module Pinata {
  import opened Wrappers
  import opened Text
  import opened JsErrors

  /** The optional `options` argument (an absent argument is all `None`). */
  datatype Options = Options(jwt: Option<string>, apiKey: Option<string>, secretKey: Option<string>)

  /** `NEXT_PUBLIC_PINATA_API_KEY`, `..._SECRET_KEY` and `..._JWT`. */
  datatype PinataEnv = PinataEnv(apiKey: Option<string>, secretKey: Option<string>, jwt: Option<string>)

  /** The request headers: the API-key pair, or a bearer token. */
  datatype Headers =
    | ApiKeyHeaders(pinataApiKey: string, pinataSecretApiKey: string)
    | BearerHeaders(authorization: string)

  /** A response of the pinning endpoint: its status, the outcome of reading the
      body as text, and the outcome of parsing that text as JSON. */
  datatype HttpResponse = HttpResponse(
    ok: bool,
    status: nat,
    body: Result<string, Thrown>,
    json: Result<JsonView, Thrown>)

  /** A parsed JSON body: its `JSON.stringify(_, null, 2)` rendering and its `IpfsHash` field. */
  datatype JsonView = JsonView(pretty: string, ipfsHash: Option<string>)

  /** `{ cid: data.IpfsHash }`; the field may be missing. */
  datatype PinResult = PinResult(cid: Option<string>)

  const NoOptions: Options := Options(None, None, None)
  const MissingCredentials: string := "Missing Pinata credentials. Provide either (API Key + Secret Key) or JWT"
  const UploadFailedPrefix: string := "Pinata upload failed: "

  /** `a || b` on optional strings. */
  function Or(a: Option<string>, b: Option<string>): (r: Option<string>)
    ensures Truthy(a) ==> r == a
    ensures !Truthy(a) ==> r == b
  {
    if Truthy(a) then a else b
  }

  function ApiKey(opts: Options, env: PinataEnv): Option<string> { Or(opts.apiKey, env.apiKey) }
  function SecretKey(opts: Options, env: PinataEnv): Option<string> { Or(opts.secretKey, env.secretKey) }
  function Jwt(opts: Options, env: PinataEnv): Option<string> { Or(opts.jwt, env.jwt) }

  /** Both halves of the key pair are truthy, before any trimming. */
  predicate HasKeyPair(opts: Options, env: PinataEnv) {
    Truthy(ApiKey(opts, env)) && Truthy(SecretKey(opts, env))
  }

  /** `jwt?.trim()` */
  function Token(opts: Options, env: PinataEnv): Option<string> {
    var jwt := Jwt(opts, env);
    if jwt.Some? then Some(Trim(jwt.value)) else None
  }

  /** The header choice, or the credentials error thrown before any request is made. */
  function SelectHeaders(opts: Options, env: PinataEnv): (r: Result<Headers, Thrown>)
    ensures (r.Success? && r.value.ApiKeyHeaders?) <==> HasKeyPair(opts, env)
    ensures r.Success? && r.value.ApiKeyHeaders? ==>
      r.value.pinataApiKey == Trim(ApiKey(opts, env).value)
      && r.value.pinataSecretApiKey == Trim(SecretKey(opts, env).value)
    ensures (r.Success? && r.value.BearerHeaders?) <==> !HasKeyPair(opts, env) && Truthy(Token(opts, env))
    ensures r.Success? && r.value.BearerHeaders? ==>
      r.value.authorization == "Bearer " + Token(opts, env).value
      && !IsJsWhitespace(Token(opts, env).value[0])
    ensures r.Failure? <==> !HasKeyPair(opts, env) && (Jwt(opts, env).None? || AllWhitespace(Jwt(opts, env).value))
    ensures r.Failure? ==> r.error == NewError(MissingCredentials)
  {
    var apiKey := ApiKey(opts, env);
    var secretKey := SecretKey(opts, env);
    if Truthy(apiKey) && Truthy(secretKey) then
      Success(ApiKeyHeaders(Trim(apiKey.value), Trim(secretKey.value)))
    else
      var token := Token(opts, env);
      TrimEmptyIffBlank(Jwt(opts, env).GetOr(""));
      TrimIsWindow(Jwt(opts, env).GetOr(""));
      if !Truthy(token) then Failure(NewError(MissingCredentials))
      else Success(BearerHeaders("Bearer " + token.value))
  }

  /** An API key and secret passed in the options win over the environment. */
  lemma OptionsTakePriority(opts: Options, env: PinataEnv, other: PinataEnv)
    requires Truthy(opts.apiKey) && Truthy(opts.secretKey)
    ensures SelectHeaders(opts, env) == SelectHeaders(opts, other)
    ensures SelectHeaders(opts, env) == Success(ApiKeyHeaders(Trim(opts.apiKey.value), Trim(opts.secretKey.value)))
  {
  }

  /** The choice is made per credential, not per source: a token passed in the
      options loses to a key pair found in the environment. */
  lemma EnvKeyPairBeatsOptionsToken(opts: Options, env: PinataEnv)
    requires !Truthy(opts.apiKey) && !Truthy(opts.secretKey)
    requires Truthy(env.apiKey) && Truthy(env.secretKey)
    ensures SelectHeaders(opts, env) == Success(ApiKeyHeaders(Trim(env.apiKey.value), Trim(env.secretKey.value)))
  {
  }

  /** The key-pair test looks at the untrimmed strings: a blank pair still wins
      over a usable token, and is sent as two empty header values. */
  lemma BlankKeyPairIsStillChosen(jwt: string)
    ensures SelectHeaders(Options(Some(jwt), Some(" "), Some("\t")), PinataEnv(None, None, None))
         == Success(ApiKeyHeaders("", ""))
  {
    assert LeadingWhitespace(" ") == 1 + LeadingWhitespace(" "[1..]);
    assert LeadingWhitespace("\t") == 1 + LeadingWhitespace("\t"[1..]);
  }

  /** The error text of a non-ok response: the status, then the pretty-printed
      JSON body when the body parses, else the raw body text ("" when unreadable). */
  function FailureMessage(resp: HttpResponse): (r: string)
    ensures StartsWith(r, UploadFailedPrefix + NatToString(resp.status) + " ")
  {
    var errorText := if resp.body.Success? then resp.body.value else "";
    var detail := if resp.body.Success? && resp.json.Success? then resp.json.value.pretty else errorText;
    var head := UploadFailedPrefix + NatToString(resp.status) + " ";
    assert (head + detail)[..|head|] == head;
    head + detail
  }

  /** What `pinFileToIPFS` does with the response it got. */
  function HandleResponse(resp: HttpResponse): (r: Result<PinResult, Thrown>)
    ensures !resp.ok ==> r == Failure(NewError(FailureMessage(resp)))
    ensures resp.ok && resp.body.Success? && resp.json.Success? ==> r == Success(PinResult(resp.json.value.ipfsHash))
    ensures resp.ok && resp.body.Failure? ==> r == Failure(resp.body.error)
    ensures resp.ok && resp.body.Success? && resp.json.Failure? ==> r == Failure(resp.json.error)
  {
    if !resp.ok then Failure(NewError(FailureMessage(resp)))
    else if resp.body.Failure? then Failure(resp.body.error)
    else if resp.json.Failure? then Failure(resp.json.error)
    else Success(PinResult(resp.json.value.ipfsHash))
  }

  /** A failed upload is always reported through an error whose text starts with the status. */
  lemma FailedUploadNamesStatus(resp: HttpResponse)
    requires !resp.ok
    ensures HandleResponse(resp).Failure?
    ensures HandleResponse(resp).error.ErrorObject?
    ensures StartsWith(HandleResponse(resp).error.message, UploadFailedPrefix + NatToString(resp.status))
  {
    var m := HandleResponse(resp).error.message;
    var p := UploadFailedPrefix + NatToString(resp.status);
    assert StartsWith(m, p + " ");
    assert m[..|p|] == (p + " ")[..|p|];
  }
}
