/**
 * The Unias OAuth2 provider adapter: it validates and normalises its
 * configuration, names the three endpoints, shapes the token request for
 * HTTP Basic client authentication (section 2.3.1 of RFC 6749, section 2 of
 * RFC 7617) without the form-urlencoding of the client id and secret that
 * section 2.3.1 asks for, turns error responses into an identity-provider
 * error and wraps user-info responses as resource owners. The OAuth2 engine it plugs into,
 * and all HTTP work, stay outside; their inputs and results are parameters.
 */
module UniasProvider {
  import opened Wrappers
  import opened Php
  import Base64
  import Utf8
  import opened UniasResourceOwner

  /** The options the provider requires, in the order it reports them. */
  const REQUIRED_OPTIONS: seq<string> :=
    ["apiBaseUri", "authorizeUri", "tokenUri", "clientId", "clientSecret", "redirectUri"]

  /** The options holding URLs, in the order the constructor trims them. */
  const URL_OPTIONS: seq<string> := ["apiBaseUri", "tokenUri", "authorizeUri"]

  const MISSING_OPTIONS_PREFIX: string := "Required options were undefined or empty: "

  const ACCOUNT_INFO_PATH: string := "/v1/account/info"

  /** The options the constructor accepts: the required ones and nothing more. */
  function ConfigurableOptions(): (r: seq<string>)
    ensures forall k :: k in r <==> k in REQUIRED_OPTIONS
  {
    REQUIRED_OPTIONS + []
  }

  // ---------------------------------------------------------------------
  // Configuration: filterOptions

  /** `array_intersect_key`: the entries whose key is configurable. */
  function Whitelist(options: map<string, string>): (r: map<string, string>)
    ensures forall k :: k in r <==> k in options && k in ConfigurableOptions()
    ensures forall k :: k in r ==> r[k] == options[k]
  {
    map k | k in options && k in ConfigurableOptions() :: options[k]
  }

  /** `rtrim($m[$k] ?? '', '/')`. */
  function TrimmedUrl(m: map<string, string>, k: string): string
  {
    RTrim(if k in m then m[k] else "", '/')
  }

  /**
   * The options once the trimming loop has visited `keys` in order: each step
   * replaces the entry under the key by its trimmed value.
   */
  function TrimUrls(m: map<string, string>, keys: seq<string>): map<string, string>
    decreases |keys|
  {
    if keys == [] then m
    else
      var before := TrimUrls(m, keys[..|keys| - 1]);
      var key := keys[|keys| - 1];
      before[key := TrimmedUrl(before, key)]
  }

  /** One more step of the trimming loop. */
  lemma TrimUrlsStep(m: map<string, string>, keys: seq<string>, i: nat)
    requires i < |keys|
    ensures TrimUrls(m, keys[..i + 1]) == TrimUrls(m, keys[..i])[keys[i] := TrimmedUrl(TrimUrls(m, keys[..i]), keys[i])]
  {
    assert keys[..i + 1][..i] == keys[..i];
  }

  /** True when no key occurs twice. */
  predicate Distinct(keys: seq<string>)
  {
    forall i, j :: 0 <= i < j < |keys| ==> keys[i] != keys[j]
  }

  /**
   * With distinct keys, every visited key holds its own trimmed input value
   * ('' trimmed when it was absent) and every other entry is untouched.
   */
  lemma {:induction false} TrimUrlsContents(m: map<string, string>, keys: seq<string>)
    requires Distinct(keys)
    ensures TrimUrls(m, keys).Keys == m.Keys + set k | k in keys
    ensures forall k :: k in keys ==> TrimUrls(m, keys)[k] == TrimmedUrl(m, k)
    ensures forall k :: k in m && k !in keys ==> TrimUrls(m, keys)[k] == m[k]
    decreases |keys|
  {
    if keys != [] {
      var init := keys[..|keys| - 1];
      var key := keys[|keys| - 1];
      assert Distinct(init);
      TrimUrlsContents(m, init);
      assert keys == init + [key];
      assert key !in init;
      var before := TrimUrls(m, init);
      assert TrimmedUrl(before, key) == TrimmedUrl(m, key);
    }
  }

  /** The pruned and trimmed options, before the required keys are checked. */
  function NormalizedOptions(options: map<string, string>): map<string, string>
  {
    TrimUrls(Whitelist(options), URL_OPTIONS)
  }

  /** True when `xs` is `ys` with some elements left out, the rest in their order. */
  predicate IsSubsequence(xs: seq<string>, ys: seq<string>)
    decreases |ys|
  {
    if xs == [] then true
    else if ys == [] then false
    else if xs[0] == ys[0] then IsSubsequence(xs[1..], ys[1..])
    else IsSubsequence(xs, ys[1..])
  }

  /** `array_filter($keys, fn ($k) => empty($m[$k]))`: the empty keys, in order. */
  function MissingFrom(keys: seq<string>, m: map<string, string>): (r: seq<string>)
    ensures forall k :: k in r <==> k in keys && EmptyEntry(m, k)
    ensures IsSubsequence(r, keys)
    decreases |keys|
  {
    if keys == [] then []
    else
      assert keys == [keys[0]] + keys[1..];
      if EmptyEntry(m, keys[0]) then [keys[0]] + MissingFrom(keys[1..], m)
      else MissingFrom(keys[1..], m)
  }

  /** An empty key is kept as often as it occurs in `keys`, a non-empty one never. */
  lemma {:induction false} MissingFromCounts(keys: seq<string>, m: map<string, string>, k: string)
    ensures multiset(MissingFrom(keys, m))[k] == if EmptyEntry(m, k) then multiset(keys)[k] else 0
    decreases |keys|
  {
    if keys != [] {
      assert keys == [keys[0]] + keys[1..];
      MissingFromCounts(keys[1..], m, k);
    }
  }

  /** What `filterOptions` returns or throws, as a function of its input. */
  function FilteredOptions(options: map<string, string>): Result<map<string, string>, string>
  {
    var m := NormalizedOptions(options);
    var missing := MissingFrom(REQUIRED_OPTIONS, m);
    if missing != [] then Failure(MISSING_OPTIONS_PREFIX + Implode(", ", missing))
    else Success(m)
  }

  /**
   * `filterOptions`: prune to the configurable keys, trim the trailing
   * slashes of each URL option in turn, then report every empty required key.
   */
  method FilterOptions(options: map<string, string>) returns (r: Result<map<string, string>, string>)
    ensures r == FilteredOptions(options)
  {
    var opts := Whitelist(options);
    ghost var pruned := opts;
    var i := 0;
    while i < |URL_OPTIONS|
      invariant 0 <= i <= |URL_OPTIONS|
      invariant opts == TrimUrls(pruned, URL_OPTIONS[..i])
    {
      var key := URL_OPTIONS[i];
      opts := opts[key := RTrim(if key in opts then opts[key] else "", '/')];
      TrimUrlsStep(pruned, URL_OPTIONS, i);
      i := i + 1;
    }
    assert URL_OPTIONS[..i] == URL_OPTIONS;
    assert opts == NormalizedOptions(options);
    var missing := MissingFrom(REQUIRED_OPTIONS, opts);
    if missing != [] {
      r := Failure(MISSING_OPTIONS_PREFIX + Implode(", ", missing));
    } else {
      r := Success(opts);
    }
  }

  /** The value a required option takes after pruning and trimming. */
  function NormalizedValue(options: map<string, string>, k: string): string
    requires k in options
  {
    if k in URL_OPTIONS then RTrim(options[k], '/') else options[k]
  }

  /**
   * Pruning and trimming: no key outside the configurable list survives,
   * every URL option is its input with all trailing slashes removed ('' when
   * absent), and every other configurable option is kept unchanged.
   */
  lemma NormalizedOptionsContents(options: map<string, string>)
    ensures forall k :: k in NormalizedOptions(options) ==> k in ConfigurableOptions()
    ensures forall k :: k in URL_OPTIONS ==> k in NormalizedOptions(options)
    ensures forall k :: k in URL_OPTIONS ==>
      NormalizedOptions(options)[k] == RTrim(if k in options then options[k] else "", '/')
    ensures forall k :: k in ConfigurableOptions() && k !in URL_OPTIONS ==>
      (k in NormalizedOptions(options) <==> k in options)
    ensures forall k :: k in options && k in ConfigurableOptions() && k !in URL_OPTIONS ==>
      NormalizedOptions(options)[k] == options[k]
  {
    TrimUrlsContents(Whitelist(options), URL_OPTIONS);
  }

  /** Normalising an already normalised configuration changes nothing. */
  lemma NormalizedOptionsIdempotent(options: map<string, string>)
    ensures NormalizedOptions(NormalizedOptions(options)) == NormalizedOptions(options)
  {
    var m := NormalizedOptions(options);
    NormalizedOptionsContents(options);
    NormalizedOptionsContents(m);
    forall k | k in URL_OPTIONS
      ensures NormalizedOptions(m)[k] == m[k]
    {
      RTrimIdempotent(if k in options then options[k] else "", '/');
    }
    assert NormalizedOptions(m).Keys == m.Keys;
  }

  /**
   * Filtering succeeds exactly when every required option is present and,
   * after trimming, neither '' nor '0' (PHP's `empty`).
   */
  lemma FilteredOptionsSucceedsIff(options: map<string, string>)
    ensures FilteredOptions(options).Success? <==>
      forall k :: k in REQUIRED_OPTIONS ==> k in options && !IsEmptyString(NormalizedValue(options, k))
  {
    var m := NormalizedOptions(options);
    NormalizedOptionsContents(options);
    if FilteredOptions(options).Success? {
      forall k | k in REQUIRED_OPTIONS
        ensures k in options && !IsEmptyString(NormalizedValue(options, k))
      {
        assert k !in MissingFrom(REQUIRED_OPTIONS, m);
      }
    } else {
      var missing := MissingFrom(REQUIRED_OPTIONS, m);
      var k := missing[0];
      assert k in missing;
      assert k in REQUIRED_OPTIONS && EmptyEntry(m, k);
    }
  }

  /**
   * On success the configuration holds exactly the six required options, the
   * URL ones trimmed and the others as given.
   */
  lemma FilteredOptionsContents(options: map<string, string>)
    requires FilteredOptions(options).Success?
    ensures FilteredOptions(options).value.Keys == set k | k in REQUIRED_OPTIONS
    ensures forall k :: k in REQUIRED_OPTIONS ==>
      k in options && FilteredOptions(options).value[k] == NormalizedValue(options, k)
  {
    NormalizedOptionsContents(options);
    FilteredOptionsSucceedsIff(options);
  }

  /**
   * On failure the message is the fixed prefix followed by the missing
   * options joined by ", ": all required options that are absent or empty
   * after trimming, none other, in the order of REQUIRED_OPTIONS.
   */
  lemma FilteredOptionsFailure(options: map<string, string>)
    requires FilteredOptions(options).Failure?
    ensures exists missing: seq<string> ::
      && FilteredOptions(options).error == MISSING_OPTIONS_PREFIX + Implode(", ", missing)
      && missing != []
      && IsSubsequence(missing, REQUIRED_OPTIONS)
      && forall k :: k in missing <==>
           k in REQUIRED_OPTIONS && (k !in options || IsEmptyString(NormalizedValue(options, k)))
  {
    var m := NormalizedOptions(options);
    NormalizedOptionsContents(options);
    var missing := MissingFrom(REQUIRED_OPTIONS, m);
    forall k | k in REQUIRED_OPTIONS
      ensures EmptyEntry(m, k) <==> (k !in options || IsEmptyString(NormalizedValue(options, k)))
    {
      if k in URL_OPTIONS && k !in options {
        assert m[k] == RTrim("", '/');
      }
    }
  }

  /** A URL option made only of slashes (or absent) is reported as missing. */
  lemma SlashOnlyUrlIsMissing(options: map<string, string>, k: string)
    requires k in URL_OPTIONS
    requires k in options ==> forall i :: 0 <= i < |options[k]| ==> options[k][i] == '/'
    ensures k in MissingFrom(REQUIRED_OPTIONS, NormalizedOptions(options))
    ensures FilteredOptions(options).Failure?
  {
    NormalizedOptionsContents(options);
    if k in options {
      RTrimAllSame(options[k], '/');
    }
  }

  /** Re-filtering an accepted configuration accepts it unchanged. */
  lemma FilteredOptionsStable(options: map<string, string>)
    requires FilteredOptions(options).Success?
    ensures FilteredOptions(FilteredOptions(options).value) == FilteredOptions(options)
  {
    var m := FilteredOptions(options).value;
    assert m == NormalizedOptions(options);
    assert MissingFrom(REQUIRED_OPTIONS, m) == [];
    NormalizedOptionsIdempotent(options);
    assert NormalizedOptions(m) == m;
  }

  /**
   * Leaving out clientId and redirectUri, with the other four options set,
   * reports both of them, in order, as one message.
   */
  lemma MissingTwoOptionsExample(options: map<string, string>)
    requires "clientId" !in options && "redirectUri" !in options
    requires "apiBaseUri" in options && !IsEmptyString(NormalizedValue(options, "apiBaseUri"))
    requires "authorizeUri" in options && !IsEmptyString(NormalizedValue(options, "authorizeUri"))
    requires "tokenUri" in options && !IsEmptyString(NormalizedValue(options, "tokenUri"))
    requires "clientSecret" in options && !IsEmptyString(NormalizedValue(options, "clientSecret"))
    ensures FilteredOptions(options) == Failure(MISSING_OPTIONS_PREFIX + Implode(", ", ["clientId", "redirectUri"]))
  {
    var m := NormalizedOptions(options);
    NormalizedEntry(options, "apiBaseUri");
    NormalizedEntry(options, "authorizeUri");
    NormalizedEntry(options, "tokenUri");
    NormalizedEntry(options, "clientId");
    NormalizedEntry(options, "clientSecret");
    NormalizedEntry(options, "redirectUri");
    MissingClientIdAndRedirectUri(m);
    FailureOfMissing(options, ["clientId", "redirectUri"]);
  }

  /** Filtering fails with the message built from the missing list. */
  lemma FailureOfMissing(options: map<string, string>, missing: seq<string>)
    requires MissingFrom(REQUIRED_OPTIONS, NormalizedOptions(options)) == missing
    requires missing != []
    ensures FilteredOptions(options) == Failure(MISSING_OPTIONS_PREFIX + Implode(", ", missing))
  {
  }

  /** Whether a required option counts as missing, in terms of the input. */
  lemma NormalizedEntry(options: map<string, string>, k: string)
    requires k in REQUIRED_OPTIONS
    ensures EmptyEntry(NormalizedOptions(options), k) <==> (k !in options || IsEmptyString(NormalizedValue(options, k)))
  {
    NormalizedOptionsContents(options);
  }

  /** The missing list when exactly clientId and redirectUri are empty. */
  lemma MissingClientIdAndRedirectUri(m: map<string, string>)
    requires !EmptyEntry(m, "apiBaseUri") && !EmptyEntry(m, "authorizeUri") && !EmptyEntry(m, "tokenUri")
    requires EmptyEntry(m, "clientId") && !EmptyEntry(m, "clientSecret") && EmptyEntry(m, "redirectUri")
    ensures MissingFrom(REQUIRED_OPTIONS, m) == ["clientId", "redirectUri"]
  {
    var keys := REQUIRED_OPTIONS;
    assert MissingFrom(keys[5..], m) == ["redirectUri"];
    assert MissingFrom(keys[4..], m) == ["redirectUri"];
    assert MissingFrom(keys[3..], m) == ["clientId", "redirectUri"];
    assert MissingFrom(keys[2..], m) == ["clientId", "redirectUri"];
    assert MissingFrom(keys[1..], m) == ["clientId", "redirectUri"];
  }

  // ---------------------------------------------------------------------
  // The provider and its endpoints

  /** A constructed provider: the validated, normalised configuration. */
  datatype Provider = Provider(
    apiBaseUri: string,
    authorizeUri: string,
    tokenUri: string,
    clientId: string,
    clientSecret: string,
    redirectUri: string)

  /** One value an accepted configuration `m` stores, in terms of the input. */
  lemma FieldOf(options: map<string, string>, m: map<string, string>, k: string)
    requires FilteredOptions(options) == Success(m)
    requires k in REQUIRED_OPTIONS
    ensures k in options && k in m
    ensures m[k] == if k in URL_OPTIONS then RTrim(options[k], '/') else options[k]
  {
    FilteredOptionsContents(options);
  }

  /** Stores each required option in the provider field of the same name. */
  function ProviderOf(m: map<string, string>): Provider
    requires forall k :: k in REQUIRED_OPTIONS ==> k in m
  {
    Provider(m["apiBaseUri"], m["authorizeUri"], m["tokenUri"], m["clientId"], m["clientSecret"], m["redirectUri"])
  }

  /**
   * The constructor: filter the options, and either fail with the filter's
   * message or store each required option in the field of the same name.
   */
  function Construct(options: map<string, string>): (r: Result<Provider, string>)
    ensures r.Failure? <==> FilteredOptions(options).Failure?
    ensures r.Failure? ==> r.error == FilteredOptions(options).error
  {
    var filtered := FilteredOptions(options);
    if filtered.Failure? then Failure(filtered.error)
    else
      FilteredOptionsContents(options);
      Success(ProviderOf(filtered.value))
  }

  /** The provider field that the option named `k` is stored in. */
  function Field(p: Provider, k: string): string
    requires k in REQUIRED_OPTIONS
  {
    if k == "apiBaseUri" then p.apiBaseUri
    else if k == "authorizeUri" then p.authorizeUri
    else if k == "tokenUri" then p.tokenUri
    else if k == "clientId" then p.clientId
    else if k == "clientSecret" then p.clientSecret
    else p.redirectUri
  }

  /**
   * A constructed provider stores each required option in its field: the
   * three URL options with their trailing slashes removed, the client id,
   * secret and redirect URI as given.
   */
  lemma ConstructStores(options: map<string, string>, k: string)
    requires Construct(options).Success?
    requires k in REQUIRED_OPTIONS
    ensures k in options
    ensures Field(Construct(options).value, k) == if k in URL_OPTIONS then RTrim(options[k], '/') else options[k]
  {
    ConstructIsProviderOf(options);
    var m := FilteredOptions(options).value;
    FieldOf(options, m, k);
    FieldOfProviderOf(m, k);
  }

  lemma ConstructIsProviderOf(options: map<string, string>)
    requires Construct(options).Success?
    ensures FilteredOptions(options).Success?
    ensures forall k :: k in REQUIRED_OPTIONS ==> k in FilteredOptions(options).value
    ensures Construct(options).value == ProviderOf(FilteredOptions(options).value)
  {
    FilteredOptionsContents(options);
  }

  lemma FieldOfProviderOf(m: map<string, string>, k: string)
    requires forall k :: k in REQUIRED_OPTIONS ==> k in m
    requires k in REQUIRED_OPTIONS
    ensures Field(ProviderOf(m), k) == m[k]
  {
  }

  /** `new UniasProvider($options)`, running the imperative filter. */
  method NewProvider(options: map<string, string>) returns (r: Result<Provider, string>)
    ensures r == Construct(options)
  {
    var filtered := FilterOptions(options);
    match filtered
    case Failure(e) =>
      r := Failure(e);
    case Success(m) =>
      FilteredOptionsContents(options);
      r := Success(ProviderOf(m));
  }

  /**
   * Every value a provider holds is non-empty in PHP's sense, and no URL
   * ends in a slash.
   */
  predicate Valid(p: Provider)
  {
    && (forall k :: k in REQUIRED_OPTIONS ==> !IsEmptyString(Field(p, k)))
    && (forall k :: k in URL_OPTIONS ==> Field(p, k)[|Field(p, k)| - 1] != '/')
  }

  /** A constructed provider is valid. */
  lemma ConstructValid(options: map<string, string>)
    requires Construct(options).Success?
    ensures Valid(Construct(options).value)
  {
    var p := Construct(options).value;
    FilteredOptionsSucceedsIff(options);
    forall k | k in REQUIRED_OPTIONS
      ensures !IsEmptyString(Field(p, k))
    {
      ConstructStores(options, k);
    }
    forall k | k in URL_OPTIONS
      ensures Field(p, k)[|Field(p, k)| - 1] != '/'
    {
      ConstructStores(options, k);
    }
  }

  /** `getBaseAuthorizationUrl`. */
  function BaseAuthorizationUrl(p: Provider): string
  {
    p.authorizeUri
  }

  /** `getBaseAccessTokenUrl($params)`: the parameters play no part. */
  function BaseAccessTokenUrl(p: Provider, params: map<string, Json>): string
  {
    p.tokenUri
  }

  /** `getApiUrl`. */
  function ApiUrl(p: Provider): string
  {
    p.apiBaseUri
  }

  /** `getResourceOwnerDetailsUrl($token)`: the token plays no part. */
  function ResourceOwnerDetailsUrl<Token>(p: Provider, token: Token): string
  {
    ApiUrl(p) + ACCOUNT_INFO_PATH
  }

  /** `getDefaultScopes`: no scopes are requested by default. */
  function DefaultScopes(): (r: seq<string>)
    ensures |r| == 0
  {
    []
  }

  /**
   * The endpoints of a provider built from `options`: the trimmed authorize
   * and token URLs verbatim, whatever the parameters, and the account-info
   * path under the trimmed API base URL, whatever the token.
   */
  lemma EndpointUrls<Token>(options: map<string, string>, params: map<string, Json>, token: Token)
    requires Construct(options).Success?
    ensures "authorizeUri" in options && "tokenUri" in options && "apiBaseUri" in options
    ensures BaseAuthorizationUrl(Construct(options).value) == RTrim(options["authorizeUri"], '/')
    ensures BaseAccessTokenUrl(Construct(options).value, params) == RTrim(options["tokenUri"], '/')
    ensures ResourceOwnerDetailsUrl(Construct(options).value, token)
              == RTrim(options["apiBaseUri"], '/') + ACCOUNT_INFO_PATH
  {
    ConstructStores(options, "authorizeUri");
    ConstructStores(options, "tokenUri");
    ConstructStores(options, "apiBaseUri");
  }

  /**
   * The token URL does not depend on the parameters, nor the resource-owner
   * URL on the token; the account-info path follows the base URL with exactly
   * one slash between them.
   */
  lemma EndpointsIgnoreArguments<Token>(p: Provider, params1: map<string, Json>, params2: map<string, Json>,
                                        token1: Token, token2: Token)
    requires Valid(p)
    ensures BaseAccessTokenUrl(p, params1) == BaseAccessTokenUrl(p, params2)
    ensures ResourceOwnerDetailsUrl(p, token1) == ResourceOwnerDetailsUrl(p, token2)
    ensures var u := ResourceOwnerDetailsUrl(p, token1);
      && |p.apiBaseUri| > 0
      && u[..|p.apiBaseUri|] == p.apiBaseUri
      && u[|p.apiBaseUri|..] == ACCOUNT_INFO_PATH
      && u[|p.apiBaseUri| - 1] != '/'
  {
    assert "apiBaseUri" in REQUIRED_OPTIONS && "apiBaseUri" in URL_OPTIONS;
    assert Field(p, "apiBaseUri") == p.apiBaseUri;
    assert !IsEmptyString(p.apiBaseUri);
    var u := ResourceOwnerDetailsUrl(p, token1);
    assert u[|p.apiBaseUri| - 1] == p.apiBaseUri[|p.apiBaseUri| - 1];
  }

  // ---------------------------------------------------------------------
  // The token request

  /**
   * `getAccessTokenRequest`: drop `client_id` and `client_secret`, then hand
   * what is left to the engine's default request builder.
   */
  method AccessTokenRequest<Request>(params: map<string, Json>, parentRequest: map<string, Json> -> Request)
    returns (sent: map<string, Json>, request: Request)
    ensures sent.Keys == params.Keys - {"client_id", "client_secret"}
    ensures forall k :: k in sent ==> sent[k] == params[k]
    ensures request == parentRequest(sent)
  {
    sent := params;
    sent := sent - {"client_id"};
    sent := sent - {"client_secret"};
    request := parentRequest(sent);
  }

  /** `"Basic " . base64_encode("$clientId:$clientSecret")`. */
  function BasicAuthorization(clientId: string, clientSecret: string): string
  {
    "Basic " + Base64.Encode(Utf8.Encode(clientId + ":" + clientSecret))
  }

  /**
   * The header is the scheme name "Basic", one space, and a base 64 token
   * that decodes to the client id's bytes, a colon and the secret's bytes.
   */
  lemma BasicAuthorizationDecodes(clientId: string, clientSecret: string)
    ensures var h := BasicAuthorization(clientId, clientSecret);
      && |h| >= 6 && h[..6] == "Basic "
      && Base64.Decode(h[6..]) == Some(Utf8.Encode(clientId) + [0x3A] + Utf8.Encode(clientSecret))
  {
    var bytes := Utf8.Encode(clientId + ":" + clientSecret);
    CredentialBytes(clientId, clientSecret);
    Base64.DecodeEncode(bytes);
    var h := BasicAuthorization(clientId, clientSecret);
    assert h == "Basic " + Base64.Encode(bytes);
    assert h[6..] == Base64.Encode(bytes);
  }

  /** Sample credentials: the id "id" with the secret "secret". */
  lemma BasicAuthorizationExample()
    ensures BasicAuthorization("id", "secret") == "Basic aWQ6c2VjcmV0"
  {
    var bytes := Utf8.Encode("id" + ":" + "secret");
    SampleCredentialBytes();
    Base64.EncodeNine(bytes);
    Base64.CredentialGroupsExample();
    assert Base64.Encode(bytes) == "aWQ6" + "c2Vj" + "cmV0";
  }

  /** The UTF-8 bytes of "id:secret", one per character. */
  lemma SampleCredentialBytes()
    ensures Utf8.Encode("id" + ":" + "secret") == [0x69, 0x64, 0x3A, 0x73, 0x65, 0x63, 0x72, 0x65, 0x74]
  {
    Utf8.EncodeAscii("id" + ":" + "secret");
  }

  /**
   * The id and secret are joined by a colon without being encoded first, so
   * a colon inside the id cannot be told apart from the separator: two
   * different credentials give the same header.
   */
  lemma BasicAuthorizationAmbiguous()
    ensures BasicAuthorization("a:b", "c") == BasicAuthorization("a", "b:c")
  {
    assert "a:b" + ":" + "c" == "a" + ":" + "b:c";
  }

  /** The bytes of "id:secret": the id's bytes, one colon byte, the secret's bytes. */
  lemma CredentialBytes(clientId: string, clientSecret: string)
    ensures Utf8.Encode(clientId + ":" + clientSecret) == Utf8.Encode(clientId) + [0x3A] + Utf8.Encode(clientSecret)
  {
    assert clientId + ":" + clientSecret == clientId + (":" + clientSecret);
    Utf8.EncodeAppend(clientId, ":" + clientSecret);
    Utf8.EncodeAppend(":", clientSecret);
    assert Utf8.Encode(":") == [0x3A];
  }

  /** The options array's `headers` entry cannot take an index. */
  datatype HeadersError = HeadersNotArray(headers: Json)

  /**
   * True when PHP can write `$options['headers']['authorization']`: the
   * entry is absent, null or false (a new array is made) or already an array.
   */
  predicate HeadersWritable(options: map<string, Json>)
  {
    "headers" !in options || options["headers"] in {Null, Bool(false)} || options["headers"].Array?
  }

  /**
   * `getAccessTokenOptions`: take the engine's default options and set
   * `headers.authorization` to the Basic credentials, overwriting any earlier
   * value and keeping every other option and header.
   */
  method AccessTokenOptions(p: Provider, defaults: map<string, Json>)
    returns (r: Result<map<string, Json>, HeadersError>)
    ensures r.Success? <==> HeadersWritable(defaults)
    ensures r.Failure? ==> r.error == HeadersNotArray(defaults["headers"])
    ensures r.Success? ==> r.value.Keys == defaults.Keys + {"headers"}
    ensures r.Success? ==> forall k :: k in defaults && k != "headers" ==> r.value[k] == defaults[k]
    ensures r.Success? ==> r.value["headers"].Array?
    ensures r.Success? ==> "authorization" in r.value["headers"].entries
    ensures r.Success? ==>
      r.value["headers"].entries["authorization"] == Str(BasicAuthorization(p.clientId, p.clientSecret))
    ensures r.Success? && "headers" in defaults && defaults["headers"].Array? ==>
      && r.value["headers"].entries.Keys == defaults["headers"].entries.Keys + {"authorization"}
      && forall h :: h in defaults["headers"].entries && h != "authorization" ==>
           r.value["headers"].entries[h] == defaults["headers"].entries[h]
    ensures r.Success? && !("headers" in defaults && defaults["headers"].Array?) ==>
      r.value["headers"].entries.Keys == {"authorization"}
  {
    var options := defaults;
    var value := Str(BasicAuthorization(p.clientId, p.clientSecret));
    if "headers" !in options || options["headers"] in {Null, Bool(false)} {
      options := options["headers" := Array(map["authorization" := value])];
      r := Success(options);
    } else if options["headers"].Array? {
      var headers := options["headers"].entries;
      headers := headers["authorization" := value];
      options := options["headers" := Array(headers)];
      r := Success(options);
    } else {
      r := Failure(HeadersNotArray(options["headers"]));
    }
  }

  // ---------------------------------------------------------------------
  // Responses

  /** The parts of an HTTP response the provider looks at. */
  datatype Response = Response(status: int, reason: string)

  /**
   * What `checkResponse` throws: an `IdentityProviderException` with its
   * message (as the `Exception` base class stores it), code and response; or
   * the TypeError raised while building it when the chosen message is an array.
   */
  datatype ResponseError =
    | IdentityProviderError(message: string, code: int, response: Response)
    | MessageTypeError(value: Json)

  /**
   * `checkResponse($response, $data)`: an error exactly for status 400 and
   * above. The message is the body's non-null `message` entry, or else the
   * reason phrase; the exception converts it to a string (a number in
   * decimal, true as "1", false as "") and fails on an array. The code is the
   * status.
   */
  function CheckResponse(response: Response, data: Json): (r: Outcome<ResponseError>)
    ensures r.Fail? <==> response.status >= 400
    ensures r.Fail? && r.error.IdentityProviderError? ==> r.error.code == response.status && r.error.response == response
    ensures r.Fail? && data.Array? && "message" in data.entries && data.entries["message"] != Null ==>
      match StringArgument(data.entries["message"])
      case Success(m) => r.error == IdentityProviderError(m, response.status, response)
      case Failure(_) => r.error == MessageTypeError(data.entries["message"])
    ensures r.Fail? && !(data.Array? && "message" in data.entries && data.entries["message"] != Null) ==>
      r.error == IdentityProviderError(response.reason, response.status, response)
  {
    var status := response.status;
    if status >= 400 then
      match StringArgument(IndexOr(data, "message", Str(response.reason)))
      case Success(message) => Fail(IdentityProviderError(message, status, response))
      case Failure(_) => Fail(MessageTypeError(data.entries["message"]))
    else Pass
  }

  /** The cases of the error check on sample responses. */
  lemma CheckResponseExamples()
    ensures CheckResponse(Response(404, "Not Found"), Array(map["message" := Str("not found")]))
      == Fail(IdentityProviderError("not found", 404, Response(404, "Not Found")))
    ensures CheckResponse(Response(500, "Internal Server Error"), Array(map[]))
      == Fail(IdentityProviderError("Internal Server Error", 500, Response(500, "Internal Server Error")))
    ensures CheckResponse(Response(500, "Internal Server Error"), Array(map["message" := Null]))
      == Fail(IdentityProviderError("Internal Server Error", 500, Response(500, "Internal Server Error")))
    ensures CheckResponse(Response(400, "Bad Request"), Array(map["message" := Bool(false)]))
      == Fail(IdentityProviderError("", 400, Response(400, "Bad Request")))
    ensures CheckResponse(Response(400, "Bad Request"), Array(map["message" := Array(map[])]))
      == Fail(MessageTypeError(Array(map[])))
    ensures CheckResponse(Response(200, "OK"), Str("ok")) == Pass
  {
  }

  /** A numeric message becomes its decimal string. */
  lemma CheckResponseNumericMessage()
    ensures CheckResponse(Response(400, "Bad Request"), Array(map["message" := Int(42)]))
      == Fail(IdentityProviderError("42", 400, Response(400, "Bad Request")))
  {
    NatToStringCanonical(42, "42");
  }

  // ---------------------------------------------------------------------
  // Resource owners

  /** The identifier field `requestResourceOwner` uses when its caller names none. */
  const DEFAULT_ID_FIELD: string := "id"

  /**
   * The wrapping step of `requestResourceOwner`: a parsed body that is not an
   * array becomes the single entry `{idField: body}`; an array is kept. A
   * caller that names no id field gets DEFAULT_ID_FIELD.
   */
  function RequestResourceOwner(parsed: Json, idField: string): (r: ResourceOwner)
    ensures r.idField == idField
    ensures parsed.Array? ==> Read(r, None) == Success(parsed)
    ensures !parsed.Array? ==> Read(r, None) == Success(Array(map[idField := parsed]))
    ensures !parsed.Array? ==> Read(r, Some(idField)) == Success(parsed)
  {
    match parsed
    case Array(entries) => ResourceOwner(entries, idField)
    case _ => ResourceOwner(map[idField := parsed], idField)
  }

  /** `createResourceOwner`: the user-info response with `sub` as its id field. */
  function CreateResourceOwner<Token>(response: map<string, Json>, token: Token): (r: ResourceOwner)
    ensures r.idField == "sub"
    ensures Read(r, None) == Success(Array(response))
    ensures forall k :: k in response ==> Read(r, Some(k)) == Success(response[k])
    ensures forall k :: k !in response ==> Read(r, Some(k)).Failure?
  {
    ResourceOwner(response, "sub")
  }

  /** A bare string body read back through `read`, with the default id field. */
  lemma ScalarBodyExample()
    ensures Read(RequestResourceOwner(Str("abc123"), DEFAULT_ID_FIELD), Some("id")) == Success(Str("abc123"))
    ensures Read(RequestResourceOwner(Str("abc123"), DEFAULT_ID_FIELD), None) == Success(Array(map["id" := Str("abc123")]))
  {
  }

  /** A user-info body read back through `read`: a present field, and an absent one. */
  lemma UserInfoExample<Token>(token: Token)
    ensures var owner := CreateResourceOwner(map["sub" := Str("u1"), "email" := Str("a@b.com")], token);
      && Read(owner, Some("sub")) == Success(Str("u1"))
      && Read(owner, Some("missing")) == Failure(UndefinedKey("missing"))
  {
  }
}
