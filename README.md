# JWKS provider builder and secret-key selection, modelled in Dafny

This project models two pieces of decision logic in a PHP JOSE verifier (php-jose-verifier).

- **`JwksProviderBuilder`** (module `JwksProviders`) is a mutable configuration holder:
  - six chaining setters each assign one nullable field and return the builder;
  - `build()` rejects a configuration that has both a static key set and a remote URI;
  - otherwise `build()` returns one of three compositions: the static set (or `{keys: []}`) in memory, a remote provider bound to the URI, or that remote provider behind a cache whose key is the base64url encoding of the URI.

  The builder is a Dafny class with the same six fields in `Option` form. The HTTP client, the request factory and the cache are the class's type parameters `C`, `F` and `K`: the builder only passes them on. The provider that `build()` returns is the datatype `Provider`. A thrown exception is a `Failure` of `Result`.
- **`jose_secret_key`** (module `SecretKey`) is a pure function of a secret and an optional algorithm name:
  - a name of the form `A` + three digits + optional `GCM` + `KW` sizes a derived key by its digits;
  - a name of the form `A` + three digits + (`GCM` | `CBC-HS` + three digits) sizes a derived key by the second group of digits when there is one, else by the first;
  - anything else, and no name, gives the `oct` key `{k: base64url(secret), kty: "oct"}`.

  The two regular expressions are modelled as hand-written matchers. Each is proved to accept exactly the names that a reference generator (`KeyWrapName`, `ContentEncryptionName`) writes out.

Supporting modules:
- `Base64Url` is the unpadded URL-safe alphabet of section 5 of RFC 4648. It has a decoder, and both round trips are proved: decoding an encoding gives back the input, and encoding a decoded string gives back the string. So the cache key identifies the URI.
- `Bytes` holds the byte type. PHP strings are byte strings, so the secret, the algorithm name and the URI are all `seq<byte>`.
- `Wrappers` holds `Option` (PHP's `null`, and `??` as `GetOr`) and `Result`.

Two behaviours of the code are easy to miss:
- A configuration with neither a static set nor a URI is accepted and serves `{keys: []}` (src/JWK/JwksProviderBuilder.php:103-104), although the error message at src/JWK/JwksProviderBuilder.php:100 asks for only one source and is raised only when both are set.
- The patterns end in PCRE's `$` with no `D` modifier. PCRE's `$` also matches just before one final line feed, so `"A128KW\n"` derives a 128-bit key (src/functions/jose_secret_key.php:16). The model implements the one-final-line-feed allowance (`DollarSubject`), and `A128KWNewline` and `DirectTwoNewlines` show where it stops.

Service discovery (`Psr18ClientDiscovery::find()`, `Psr17FactoryDiscovery::findRequestFactory()`) is modelled as follows:
- The parameter `Ambient` holds what discovery would find, or `None` when nothing is installed and the lookup throws.
- `Build` also returns the discovery calls it made, in order.
- This lets the model state that discovery runs only on the remote path, and only for a collaborator that was not configured.

## Model

| member | source | states |
|---|---|---|
| `SecretKey.JoseSecretKey` | src/functions/jose_secret_key.php:14-30 | a derived key carries the caller's secret and a size of at most 999; the direct key has `kty` = `oct` and a `k` that decodes back to the secret |
| `SecretKey.DecimalValue` | src/functions/jose_secret_key.php:17 | the `(int)` cast of a three-digit group is at most 999 |
| `SecretKey.DecimalValueOfThreeDigits` | src/functions/jose_secret_key.php:17 | reading the zero-padded three-digit form of n gives back n, for every n up to 999 |
| `SecretKey.ThreeDigitsOfDecimalValue` | src/functions/jose_secret_key.php:21 | every three-digit group is the zero-padded form of its value, so the value loses nothing |
| `SecretKey.MatchKeyWrap` | src/functions/jose_secret_key.php:16 | on a match, group 1 is three ASCII digits and no group 2 is set |
| `SecretKey.MatchContentEncryption` | src/functions/jose_secret_key.php:20 | on a match, group 1 is three digits, and group 2, when set, is three digits |
| `SecretKey.DollarSubjectOfName` | src/functions/jose_secret_key.php:16 | `$` without the `D` modifier: a name that does not end in a line feed matches with or without one final line feed |
| `SecretKey.MatchKeyWrapComplete` | src/functions/jose_secret_key.php:16 | every `A`+ddd+[`GCM`]+`KW`[+LF] name matches, with ddd in group 1 |
| `SecretKey.MatchKeyWrapSound` | src/functions/jose_secret_key.php:16 | every accepted name is that shape, with the captured digits |
| `SecretKey.MatchKeyWrapIff` | src/functions/jose_secret_key.php:16 | the first pattern matches exactly the key-wrapping names (both directions) |
| `SecretKey.MatchContentEncryptionComplete` | src/functions/jose_secret_key.php:20 | every `A`+ddd+`GCM` or `A`+ddd+`CBC-HS`+ddd name, optionally followed by one LF, matches; group 2 holds the HMAC digits exactly when present |
| `SecretKey.MatchContentEncryptionSound` | src/functions/jose_secret_key.php:20 | every accepted name is that shape, rebuilt from its captures |
| `SecretKey.MatchContentEncryptionIff` | src/functions/jose_secret_key.php:20 | the second pattern matches exactly the content-encryption names (both directions) |
| `SecretKey.PatternsDisjoint` | src/functions/jose_secret_key.php:16-20 | no name matches both patterns, so first-match-wins never hides the second branch |
| `SecretKey.KeyWrapDerives` | src/functions/jose_secret_key.php:16-17 | a key-wrapping name derives a key sized by its three digits |
| `SecretKey.GcmDerives` | src/functions/jose_secret_key.php:20-21 | an AES-GCM name derives a key sized by group 1 |
| `SecretKey.CbcHmacDerives` | src/functions/jose_secret_key.php:20-21 | an AES-CBC-HMAC name derives a key sized by group 2, the HMAC digits, not group 1 |
| `SecretKey.DirectIff` | src/functions/jose_secret_key.php:16-29 | the direct key is returned exactly when the name is null or has neither shape, and it is then `{k: base64url(secret), kty: "oct"}` |
| `SecretKey.BranchIndependentOfSecret` | src/functions/jose_secret_key.php:16-21 | the branch taken and the derived size depend on the algorithm name only |
| `SecretKey.A128KW` | src/functions/jose_secret_key.php:16-17 | A128KW derives 128 bits |
| `SecretKey.A192KW` | src/functions/jose_secret_key.php:16-17 | A192KW derives 192 bits |
| `SecretKey.A256KW` | src/functions/jose_secret_key.php:16-17 | A256KW derives 256 bits |
| `SecretKey.A128GCMKW` | src/functions/jose_secret_key.php:16-17 | A128GCMKW derives 128 bits |
| `SecretKey.A192GCMKW` | src/functions/jose_secret_key.php:16-17 | A192GCMKW derives 192 bits |
| `SecretKey.A256GCMKW` | src/functions/jose_secret_key.php:16-17 | A256GCMKW derives 256 bits |
| `SecretKey.A128GCM` | src/functions/jose_secret_key.php:20-21 | A128GCM derives 128 bits |
| `SecretKey.A192GCM` | src/functions/jose_secret_key.php:20-21 | A192GCM derives 192 bits |
| `SecretKey.A256GCM` | src/functions/jose_secret_key.php:20-21 | A256GCM derives 256 bits |
| `SecretKey.A128CBC_HS256` | src/functions/jose_secret_key.php:20-21 | A128CBC-HS256 derives 256 bits |
| `SecretKey.A192CBC_HS384` | src/functions/jose_secret_key.php:20-21 | A192CBC-HS384 derives 384 bits |
| `SecretKey.A256CBC_HS512` | src/functions/jose_secret_key.php:20-21 | A256CBC-HS512 derives 512 bits |
| `SecretKey.A128KWNewline` | src/functions/jose_secret_key.php:16-17 | "A128KW" followed by a line feed still derives 128 bits |
| `SecretKey.A128CBC_HS256Newline` | src/functions/jose_secret_key.php:20-21 | "A128CBC-HS256" followed by a line feed still derives 256 bits |
| `SecretKey.DirectNoAlgorithm` | src/functions/jose_secret_key.php:24-29 | a null algorithm gives the direct `oct` key |
| `SecretKey.DirectHS256` | src/functions/jose_secret_key.php:24-29 | HS256 falls through to the direct key |
| `SecretKey.DirectLeadingGarbage` | src/functions/jose_secret_key.php:16-29 | xA128KW does not match `^` and gives the direct key |
| `SecretKey.DirectTrailingGarbage` | src/functions/jose_secret_key.php:16-29 | A128KWX does not match `$` and gives the direct key |
| `SecretKey.DirectTwoDigits` | src/functions/jose_secret_key.php:16-29 | A12KW does not match `\d{3}` and gives the direct key |
| `SecretKey.DirectTwoNewlines` | src/functions/jose_secret_key.php:16-29 | two final line feeds are more than `$` allows, so the direct key is returned |
| `Base64Url.Encode` | src/functions/jose_secret_key.php:25 | the encoding of n bytes has ceil(4n/3) symbols: no padding |
| `Base64Url.EncodeUrlSafe` | src/functions/jose_secret_key.php:25 | every symbol of an encoding is in the URL-safe alphabet, so there is no `+`, `/` or `=` |
| `Base64Url.FromSextetsOfBytes` | src/functions/jose_secret_key.php:25 | combining the six-bit groups of any byte string gives the bytes back |
| `Base64Url.ToSextetsOfSextets` | src/functions/jose_secret_key.php:25 | every sequence of six-bit groups that combines into bytes is the split of those bytes |
| `Base64Url.DecodeEncode` | src/JWK/JwksProviderBuilder.php:117 | decoding the encoding of any byte string gives it back |
| `Base64Url.EncodeDecode` | src/JWK/JwksProviderBuilder.php:117 | every string the decoder accepts is the encoding of what it decodes to |
| `Base64Url.EncodeInjective` | src/JWK/JwksProviderBuilder.php:117 | two byte strings have the same encoding exactly when they are equal |
| `JwksProviders.SetterFrame` | src/JWK/JwksProviderBuilder.php:45-85 | a setter leaves every field but its own unchanged, and any change it makes is to its own field |
| `JwksProviders.LastSetterWins` | src/JWK/JwksProviderBuilder.php:45-85 | setting a field twice keeps only the second value |
| `JwksProviders.SettersCommute` | src/JWK/JwksProviderBuilder.php:45-85 | setters of different fields can be chained in either order |
| `JwksProviders.UntouchedFieldKept` | src/JWK/JwksProviderBuilder.php:45-85 | a field that no call in a chain assigns keeps its value |
| `JwksProviders.JwksStaysSet` | src/JWK/JwksProviderBuilder.php:45-50 | once a static set is stored, no chain of setter calls makes it null again |
| `JwksProviders.BothSourcesPersist` | src/JWK/JwksProviderBuilder.php:99-101 | once both a static set and a URI are stored, they stay set, and `build()` therefore fails, unless the URI is set back to null |
| `JwksProviders.JwksProviderBuilder.constructor` | src/JWK/JwksProviderBuilder.php:21-36 | a new builder has every field null except `cacheTtl`, which is 86400 |
| `JwksProviders.JwksProviderBuilder.SetJwks` | src/JWK/JwksProviderBuilder.php:45-50 | stores the (non-null) set, changes no other field, returns the same builder |
| `JwksProviders.JwksProviderBuilder.SetJwksUri` | src/JWK/JwksProviderBuilder.php:52-57 | stores the URI or null, changes no other field, returns the same builder |
| `JwksProviders.JwksProviderBuilder.SetHttpClient` | src/JWK/JwksProviderBuilder.php:59-64 | stores the client or null, changes no other field, returns the same builder |
| `JwksProviders.JwksProviderBuilder.SetRequestFactory` | src/JWK/JwksProviderBuilder.php:66-71 | stores the factory or null, changes no other field, returns the same builder |
| `JwksProviders.JwksProviderBuilder.SetCache` | src/JWK/JwksProviderBuilder.php:73-78 | stores the cache or null, changes no other field, returns the same builder |
| `JwksProviders.JwksProviderBuilder.SetCacheTtl` | src/JWK/JwksProviderBuilder.php:80-85 | stores the TTL or null, changes no other field, returns the same builder |
| `JwksProviders.JwksProviderBuilder.BuildRequestFactory` | src/JWK/JwksProviderBuilder.php:87-90 | the configured factory with no lookup; otherwise one lookup, and its result or a not-found failure |
| `JwksProviders.JwksProviderBuilder.BuildHttpClient` | src/JWK/JwksProviderBuilder.php:92-95 | the configured client with no lookup; otherwise one lookup, and its result or a not-found failure |
| `JwksProviders.JwksProviderBuilder.Build` | src/JWK/JwksProviderBuilder.php:97-123 | both sources: invalid-argument failure. No URI: `Memory` of the set or `{keys: []}`, no lookups. URI: exactly the lookups for unconfigured collaborators, client first; `Remote` on that URI, wrapped in `Cached` with the configured cache, key base64url(URI) and the current TTL when a cache is set. The key decodes back to the URI. No field changes |
| `JwksProviders.BuildTwice` | src/JWK/JwksProviderBuilder.php:97-123 | two builds on one builder give equal results and leave its fields as they were |
| `JwksProviders.CacheKeyIdentifiesUri` | src/JWK/JwksProviderBuilder.php:117 | two URIs give the same cache key exactly when they are the same URI |
| `JwksProviders.BuildFresh` | src/JWK/JwksProviderBuilder.php:103-104 | an untouched builder serves `{keys: []}` from memory and looks nothing up |
| `JwksProviders.BuildWithBothSources` | src/JWK/JwksProviderBuilder.php:99-101 | calling `setJwksUri(uri)` and `setJwks(set)`, in either order, makes `build()` fail with the invalid-argument message |
| `JwksProviders.BuildCachedRemote` | src/JWK/JwksProviderBuilder.php:107-120 | a URI with a configured client, factory and cache under the default TTL gives `Cached(Remote(client, factory, uri), cache, base64url(uri), 86400)`, with no discovery |

## Left out

- `MemoryJwksProvider`, `RemoteJwksProvider` and `CachedJwksProvider` are not part of this model. What their `fetch()` does (returning the set, the HTTP GET, the read-through cache) is left out. The model records only which variant `build()` constructs and with which arguments.
- `derived_key` is not part of this model. `Derived(secret, size)` stands for the call `derived_key($secret, $size)`. It does not model what the derived key contains or whether that routine rejects a size.
- The `Jose\Component\Core\JWK` constructor is not part of this model: `Direct` holds the member array it receives.
- The `Base64Url` library is not part of this model. Its unpadded encoder is written out from section 5 of RFC 4648.
- Service discovery (php-http/discovery) is not part of this model. What it would find is the `Ambient` parameter. That a failed lookup throws, and that this exception leaves `build()`, is assumed of that library.
- The PSR-18 client, the PSR-17 request factory and the PSR-16 cache are opaque type parameters. Nothing they do is modelled.
- The shape of the static key set is not validated by the builder, and no such validation is modelled. A PHP array without a `keys` member cannot be expressed as a `JwkSet`. JSON numbers are modelled as integers only.
- `cacheTtl` is an unbounded `int`. PHP's 64-bit integer width does not matter here, because the builder only passes the value on.
