# Unias OAuth2 provider adapter, modelled in Dafny

`UniasProvider` is the adapter that plugs the Unias identity provider into a
generic OAuth2 client engine. `UniasResourceOwner` is the profile object it
returns. This project models both:

- **Configuration.** The constructor runs `filterOptions`, which:
  - keeps only the six configurable option names;
  - strips every trailing `/` from `apiBaseUri`, `tokenUri` and `authorizeUri`;
  - rejects the configuration with one message listing every required option that is absent or empty in PHP's sense (`''` or `'0'`), or returns the pruned map.
- **Endpoints.** The authorize URL and token URL are returned as stored. The user-info URL is `apiBaseUri` followed by `/v1/account/info`.
- **Token request.** On the request side, `client_id` and `client_secret` are removed from the request parameters. On the options side, `headers.authorization` is set to HTTP Basic credentials (section 2 of RFC 7617), as section 2.3.1 of RFC 6749 uses them for client authentication. The credentials are the base 64 encoding, per section 4 of RFC 4648, of the UTF-8 bytes of `clientId:clientSecret`. The code does not form-urlencode the id and secret first, as section 2.3.1 asks. So the header matches that section only for ids and secrets that encoding leaves unchanged, and a colon inside the id is indistinguishable from the separator.
- **Error check.** A response with status 400 or above becomes an identity-provider error. It carries the status as its code. Its message is the body's non-null `message` entry, or else the reason phrase, converted to a string the way PHP passes it to the exception's `string` parameter. An array message raises a TypeError instead.
- **Resource owners.** A resource owner is built from a user-info body:
  - a non-array body `v` is wrapped as `{idField: v}`, where `idField` defaults to `id`;
  - `createResourceOwner` uses `sub` as the id field;
  - `read` returns the whole map with no key, or the value stored under the key.

Modules:
- `Wrappers`: `Option`, `Result` and `Outcome`.
- `Php`:
  - the decoded-JSON / PHP array value `Json`;
  - `rtrim`;
  - `??` on an array entry;
  - `empty`;
  - `implode`;
  - the conversion of a value passed to a built-in function's `string` parameter.
- `Utf8`: the bytes of a PHP string.
- `Base64`: `base64_encode`, plus a decoder used to show that the encoding loses nothing.
- `UniasResourceOwner`: `UniasResourceOwner.php`.
- `UniasProvider`: `UniasProvider.php`.

`filterOptions` is modelled in two parts:
- `FilterOptions`, a method with the source's `foreach` loop;
- `FilteredOptions`, the function it is proved equal to.

The lemmas about filtering are stated about `FilteredOptions`. A constructed provider never changes, so it is the value `Provider`. `Construct` builds it, and the method `NewProvider` builds it through `FilterOptions`. The other two imperative operations are the `unset` in `getAccessTokenRequest` and the nested write `$params['headers']['authorization'] = …` in `getAccessTokenOptions`. Both are methods that update a local map, as the source does.

## Model

| member | source | states |
|---|---|---|
| Php.RTrim | src/Provider/UniasProvider.php:214 | `rtrim` with `/` gives a prefix of the input that does not end in the character, with only that character after it, so every trailing occurrence is removed |
| Php.RTrimIdempotent | src/Provider/UniasProvider.php:213-215 | trimming twice is trimming once |
| Php.RTrimUnique | src/Provider/UniasProvider.php:214 | any string with RTrim's three properties is RTrim's result, so its contract determines it |
| Php.RTrimAllSame | src/Provider/UniasProvider.php:214 | a string of slashes, or the empty string, trims to `''` |
| Php.IndexOr | src/Provider/UniasProvider.php:129 | for a non-numeric key such as `'message'`, `$data[$key] ?? $default` is the entry when `data` is an array holding a non-null value under `key`, and the default otherwise |
| Utf8.EncodeChar | src/Provider/UniasProvider.php:169 | one character becomes 1 to 4 bytes: a single byte exactly for ASCII, else a lead byte and continuation bytes |
| Utf8.CodePointOfEncodeChar | src/Provider/UniasProvider.php:169 | every character is recovered from its bytes |
| Utf8.Encode | src/Provider/UniasProvider.php:169 | a string has at least as many bytes as characters |
| Utf8.EncodeAppend | src/Provider/UniasProvider.php:169 | the bytes of a concatenation are the concatenated bytes |
| Utf8.EncodeAscii | src/Provider/UniasProvider.php:169 | an ASCII string is encoded byte for byte |
| Base64.Encode | src/Provider/UniasProvider.php:169 | `base64_encode` output has length 4·⌈n/3⌉ and uses only alphabet symbols and `=` |
| Base64.DecodeEncode | src/Provider/UniasProvider.php:169 | decoding the encoding gives back exactly the input bytes |
| UniasResourceOwner.Read | src/Provider/UniasResourceOwner.php:9-16 | no key gives the whole response; a key gives its value when present, and an undefined-key error naming it otherwise |
| UniasResourceOwner.ReadModesAgree | src/Provider/UniasResourceOwner.php:9-16 | for a present key, the whole map indexed at the key equals the single-key read |
| UniasResourceOwner.ReadKeys | src/Provider/UniasResourceOwner.php:11-15 | a single-key read succeeds exactly for the keys of the whole-map read |
| UniasProvider.ConfigurableOptions | src/Provider/UniasProvider.php:178-199 | the configurable options are exactly the six required ones |
| UniasProvider.Whitelist | src/Provider/UniasProvider.php:210 | `array_intersect_key` keeps exactly the configurable keys of the input, with their values |
| UniasProvider.TrimUrlsContents | src/Provider/UniasProvider.php:213-215 | after the loop over distinct keys, each visited key holds its own trimmed input (`''` when absent), and every other entry is untouched |
| UniasProvider.MissingFrom | src/Provider/UniasProvider.php:217-219 | `array_filter` keeps exactly the keys whose entry is empty, in their original order. Empty is `Php.EmptyEntry`: absent, or `Php.IsEmptyString`, that is `''` or `'0'` |
| UniasProvider.MissingFromCounts | src/Provider/UniasProvider.php:217-219 | `array_filter` keeps each empty key as many times as it occurs in the key list, and no non-empty key |
| UniasProvider.FilteredOptionsSucceedsIff | src/Provider/UniasProvider.php:208-226 | `FilteredOptions` says what `filterOptions` returns or throws. It succeeds if and only if every required option is present and, after trimming, neither `''` nor `'0'` |
| UniasProvider.FilteredOptionsFailure | src/Provider/UniasProvider.php:217-222 | on failure the message is the fixed prefix and then `Php.Implode(", ", missing)`. `missing` is non-empty, follows the required-option order, and holds exactly the absent or empty required options |
| UniasProvider.FilterOptions | src/Provider/UniasProvider.php:207-226 | the loop-based filter returns exactly `FilteredOptions(options)`, the success value or the exception message |
| UniasProvider.NormalizedOptionsContents | src/Provider/UniasProvider.php:210-215 | no non-configurable key survives; each URL option is present and is its input with all trailing slashes removed (`''` when absent); each other configurable option is kept unchanged, or stays absent |
| UniasProvider.NormalizedOptionsIdempotent | src/Provider/UniasProvider.php:210-215 | pruning and trimming an already normalised map changes nothing |
| UniasProvider.FilteredOptionsContents | src/Provider/UniasProvider.php:208-225 | on success the result holds exactly the six required keys, each with its input value (trimmed for URLs) |
| UniasProvider.SlashOnlyUrlIsMissing | src/Provider/UniasProvider.php:214-221 | a URL option that is absent or made only of slashes is reported missing, and filtering fails |
| UniasProvider.FilteredOptionsStable | src/Provider/UniasProvider.php:208-225 | filtering an accepted configuration again accepts it unchanged |
| UniasProvider.MissingTwoOptionsExample | src/Provider/UniasProvider.php:217-222 | leaving out clientId and redirectUri, with the other four set, reports both in order in one message |
| UniasProvider.Construct | src/Provider/UniasProvider.php:37-40 | construction fails exactly when filtering fails, and with its message |
| UniasProvider.ConstructStores | src/Provider/UniasProvider.php:37-40 | a constructed provider stores each required option in its field: URLs trimmed, the other options as given. The store is `ProviderOf`, the parent constructor's assignment of each option to the field of the same name, read through `Field` |
| UniasProvider.NewProvider | src/Provider/UniasProvider.php:37-40 | constructing through the loop-based filter gives `Construct(options)` |
| UniasProvider.ConstructValid | src/Provider/UniasProvider.php:37-40 | every field of a constructed provider is non-empty, and no URL ends in `/` |
| UniasProvider.EndpointUrls | src/Provider/UniasProvider.php:47-101 | for a provider built from `options`, whatever the parameters and token: <br>• `BaseAuthorizationUrl` (`getBaseAuthorizationUrl`) is the `authorizeUri` option with its trailing slashes removed; <br>• `BaseAccessTokenUrl` is the trimmed `tokenUri` option; <br>• `ResourceOwnerDetailsUrl` is `ApiUrl` (`getApiUrl`, the trimmed `apiBaseUri` option) followed by `/v1/account/info` |
| UniasProvider.EndpointsIgnoreArguments | src/Provider/UniasProvider.php:57-72 | `BaseAccessTokenUrl` doesn't depend on the parameters, and `ResourceOwnerDetailsUrl` doesn't depend on the token. The user-info URL is the API base, which is non-empty and has no trailing slash, then the account-info path |
| UniasProvider.DefaultScopes | src/Provider/UniasProvider.php:111-114 | no default scopes |
| UniasProvider.AccessTokenRequest | src/Provider/UniasProvider.php:154-158 | the parameters sent keep exactly the input's keys minus `client_id` and `client_secret`, with unchanged values; the request is the engine's builder applied to them |
| UniasProvider.BasicAuthorizationExample | src/Provider/UniasProvider.php:169 | `BasicAuthorization`: the id `id` with the secret `secret` gives `Basic aWQ6c2VjcmV0` |
| UniasProvider.BasicAuthorizationAmbiguous | src/Provider/UniasProvider.php:169 | `BasicAuthorization` does no form-urlencoding, so the id `a:b` with secret `c` gives the same header as the id `a` with secret `b:c` |
| Base64.EncodeTestVectors | src/Provider/UniasProvider.php:169 | `f`, `fo` and `foo` encode as in section 10 of RFC 4648 |
| Base64.EncodeFoobar | src/Provider/UniasProvider.php:169 | `foobar` encodes as in section 10 of RFC 4648 |
| UniasProvider.BasicAuthorizationDecodes | src/Provider/UniasProvider.php:169 | the header is `Basic `, then a base 64 token that decodes to the client id's bytes, one colon byte and the secret's bytes |
| UniasProvider.AccessTokenOptions | src/Provider/UniasProvider.php:166-171 | the write succeeds if and only if `headers` is absent, null, false or an array. On success `headers.authorization` is the Basic credentials, overwriting any earlier value, and every other option and header is kept. Otherwise the error carries the scalar |
| UniasProvider.CheckResponse | src/Provider/UniasProvider.php:124-134 | fails if and only if status ≥ 400. The exception has the status as code and the response attached. Its message is the body's non-null `message`, or else the reason phrase, after PHP's string conversion; an array message gives the TypeError instead |
| UniasProvider.CheckResponseExamples | src/Provider/UniasProvider.php:124-134 | these cases all hold: <br>• 404 with a message gives that message; <br>• 500 with an empty body or a null message gives the reason phrase; <br>• a false message becomes `""`; <br>• an array message gives the TypeError; <br>• 200 passes |
| UniasProvider.CheckResponseNumericMessage | src/Provider/UniasProvider.php:128-132 | a message `42` becomes the string `"42"` |
| Php.StringArgument | src/Provider/UniasProvider.php:128-132 | how a message value is passed to the exception's `string` parameter: <br>• a string is kept; <br>• true becomes `"1"`, false and null become `""`; <br>• an integer becomes its canonical decimal form: the digits of its magnitude, with no leading zero, after `-` when it is negative; <br>• exactly the arrays fail, with the TypeError |
| Php.NatToString | src/Provider/UniasProvider.php:128-132 | the decimal form of a number: digits only, no leading zero, denoting the number |
| Php.IntToString | src/Provider/UniasProvider.php:128-132 | an integer's string form is the canonical decimal form: its magnitude's digits with no leading zero, after `-` exactly when it is negative |
| Php.NatToStringCanonical | src/Provider/UniasProvider.php:128-132 | every digit string with no leading zero that denotes `n` is `NatToString(n)`, so the conversion is the canonical decimal form |
| UniasProvider.RequestResourceOwner | src/Provider/UniasProvider.php:86-90 | an array body is kept as the response; a non-array body `v` becomes `{idField: v}`, readable under `idField` |
| UniasProvider.CreateResourceOwner | src/Provider/UniasProvider.php:143-146 | the id field is `sub`; reads return the whole response, each present value, and an error for each absent key |
| UniasProvider.ScalarBodyExample | src/Provider/UniasProvider.php:83-91 | a bare string body `"abc123"` with the default id field `id` reads back as `"abc123"` and as `{"id": "abc123"}` |
| UniasProvider.UserInfoExample | src/Provider/UniasProvider.php:143-146 | a user-info body reads `sub` back and reports an absent field as undefined |

## Left out

- HTTP work is left out: `getParsedResponse` and `getAuthenticatedRequest` in `requestResourceOwner`, and the request objects. `RequestResourceOwner` takes the parsed body and the id field as inputs. When the caller omits the id field, it is `DEFAULT_ID_FIELD`, that is `id`. A response is modelled only as its status and reason phrase.
- The parent `AbstractProvider` is not part of this model:
  - its constructor beyond the assignment of each filtered option to the field of the same name (that assignment is `ProviderOf`), including the collaborators;
  - `parent::getAccessTokenRequest`, which `AccessTokenRequest` takes as a function parameter;
  - `parent::getAccessTokenOptions`, whose result `AccessTokenOptions` takes as its input;
  - the bearer header of `BearerAuthorizationTrait`.
- `AccessToken`'s members are not modelled. The token is a type parameter that no URL depends on. `IdentityProviderException` is modelled only as its message, code and response.
- `UniasProvider.BasicAuthorization`: follows the code, which joins the id and secret with a colon without the form-urlencoding of section 2.3.1 of RFC 6749. `BasicAuthorizationAmbiguous` shows two credentials that give the same header.
- `Php.IndexOr`: a string `data` indexed with a numeric key (`"abc"['1']` is `"b"`) is not modelled; the model gives the default. The only use, `$data['message']` at line 129 of `src/Provider/UniasProvider.php`, has a non-numeric key, so `CheckResponse` is exact.
- `Php.StringArgument`: `Json.Int` is unbounded. `json_decode` turns a number beyond 64 bits into a float, and floats are left out. Null becomes `""`, and PHP 8.1's deprecation notice for it is not modelled; `checkResponse` never passes null, because `??` skips it.
- Option values are strings only. An option given as null, an integer or an array is left out, and so are PHP's other `empty` cases that only such values reach (`null`, `0`, `false`, `[]`).
- PHP arrays are maps. Their key order is not modelled. Integer keys behave like their string form, and floats in a decoded body are left out.
- `Utf8.Encode`: the bytes of the PHP strings are taken to be the UTF-8 encoding of the Dafny string. Byte strings that are not valid UTF-8 are not modelled.
- `UniasResourceOwner.Read`: reading an absent key is reported as `Failure(UndefinedKey(key))`. The code indexes the array directly, so PHP raises an "Undefined array key" warning. When such warnings are not turned into exceptions, PHP then goes on with `null`. That `null` continuation is not modelled. The model reports the failure the warning signals, and adds no precondition.
- `UniasProvider.AccessTokenOptions`: a `headers` entry that is true, a number or a string is an error, as PHP 8 raises one when such a value is used as an array. PHP 8.1 also emits a deprecation notice when a false entry is turned into an array; that notice is not modelled.
