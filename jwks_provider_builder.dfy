/** `JwksProviderBuilder`: a mutable configuration holder whose `build()`
    validates the configuration and chooses how the JSON Web Key Set is
    supplied (a static set in memory, a remote URI, or a remote URI behind a
    cache).

    The HTTP client, the request factory and the cache are collaborators the
    builder only passes on: they are the type parameters C, F and K. */
module JwksProviders {
  import opened Bytes
  import opened Wrappers
  import Base64Url

  /** A JSON value, as a JWK member may hold. */
  datatype Json =
    | Null
    | Bool(b: bool)
    | Number(n: int)
    | Text(s: string)
    | List(items: seq<Json>)
    | Object(members: map<string, Json>)

  /** One JWK: named members. */
  type Jwk = map<string, Json>

  /** A JWK set, `['keys' => [...]]`. */
  datatype JwkSet = JwkSet(keys: seq<Jwk>)

  /** `['keys' => []]`, the set a builder without a static set or a URI serves. */
  const EmptyJwkSet: JwkSet := JwkSet([])

  /** The provider composition `build()` returns: each variant records the
      arguments its constructor received. */
  datatype Provider<C, F, K> =
    | Memory(jwks: JwkSet)
    | Remote(client: C, factory: F, uri: seq<byte>)
    | Cached(inner: Provider<C, F, K>, cache: K, key: string, ttl: Option<int>)

  /** The two services the builder may look up in the environment. */
  datatype Service = HttpClientService | RequestFactoryService

  /** What `build()` may throw. */
  datatype BuildError =
    | InvalidArgument(message: string)
    | DiscoveryNotFound(service: Service)

  const OnlyOneSource: string := "You should provide only one between remote or static jwks"

  /** What service discovery finds in the environment: `Psr18ClientDiscovery::find()`
      and `Psr17FactoryDiscovery::findRequestFactory()`; None when nothing is
      installed and the lookup throws. */
  datatype Ambient<C, F> = Ambient(client: Option<C>, factory: Option<F>)

  /** The value of a nullable field, or else the discovered default. */
  function Resolve<T>(configured: Option<T>, discovered: Option<T>): Option<T>
  {
    if configured.Some? then configured else discovered
  }

  /** The initial TTL of the cache entry, one day in seconds. */
  const DefaultCacheTtl: int := 86400

  /** A snapshot of the six fields of a builder. */
  datatype Config<C, F, K> = Config(
    jwks: Option<JwkSet>,
    jwksUri: Option<seq<byte>>,
    httpClient: Option<C>,
    requestFactory: Option<F>,
    cache: Option<K>,
    cacheTtl: Option<int>)

  /** The fields of a freshly constructed builder. */
  function Initial<C, F, K>(): Config<C, F, K>
  {
    Config(None, None, None, None, None, Some(DefaultCacheTtl))
  }

  /** One setter call with its argument. `setJwks` takes a non-nullable array. */
  datatype Setting<C, F, K> =
    | JwksSetting(jwks: JwkSet)
    | JwksUriSetting(uri: Option<seq<byte>>)
    | HttpClientSetting(client: Option<C>)
    | RequestFactorySetting(factory: Option<F>)
    | CacheSetting(cache: Option<K>)
    | CacheTtlSetting(ttl: Option<int>)

  /** The names of the six fields. */
  datatype Field = JwksField | JwksUriField | HttpClientField | RequestFactoryField | CacheField | CacheTtlField

  /** The field a setter assigns. */
  function FieldOf<C, F, K>(s: Setting<C, F, K>): Field
  {
    match s
    case JwksSetting(_) => JwksField
    case JwksUriSetting(_) => JwksUriField
    case HttpClientSetting(_) => HttpClientField
    case RequestFactorySetting(_) => RequestFactoryField
    case CacheSetting(_) => CacheField
    case CacheTtlSetting(_) => CacheTtlField
  }

  /** Two snapshots hold the same value in field f. */
  ghost predicate Agree<C, F, K>(a: Config<C, F, K>, b: Config<C, F, K>, f: Field)
  {
    match f
    case JwksField => a.jwks == b.jwks
    case JwksUriField => a.jwksUri == b.jwksUri
    case HttpClientField => a.httpClient == b.httpClient
    case RequestFactoryField => a.requestFactory == b.requestFactory
    case CacheField => a.cache == b.cache
    case CacheTtlField => a.cacheTtl == b.cacheTtl
  }

  /** The fields after one setter call. */
  function Apply<C, F, K>(c: Config<C, F, K>, s: Setting<C, F, K>): Config<C, F, K>
  {
    match s
    case JwksSetting(j) => c.(jwks := Some(j))
    case JwksUriSetting(u) => c.(jwksUri := u)
    case HttpClientSetting(h) => c.(httpClient := h)
    case RequestFactorySetting(r) => c.(requestFactory := r)
    case CacheSetting(k) => c.(cache := k)
    case CacheTtlSetting(t) => c.(cacheTtl := t)
  }

  /** The fields after a chain of setter calls, first to last. */
  function ApplyAll<C, F, K>(c: Config<C, F, K>, ss: seq<Setting<C, F, K>>): Config<C, F, K>
    decreases |ss|
  {
    if ss == [] then c else ApplyAll(Apply(c, ss[0]), ss[1..])
  }

  /** A setter changes its own field and no other. */
  lemma SetterFrame<C, F, K>(c: Config<C, F, K>, s: Setting<C, F, K>)
    ensures forall f :: f != FieldOf(s) ==> Agree(Apply(c, s), c, f)
    ensures Apply(c, s) != c ==> !Agree(Apply(c, s), c, FieldOf(s))
  {
  }

  /** Setting the same field twice keeps the second value only. */
  lemma LastSetterWins<C, F, K>(c: Config<C, F, K>, s: Setting<C, F, K>, t: Setting<C, F, K>)
    requires FieldOf(s) == FieldOf(t)
    ensures Apply(Apply(c, s), t) == Apply(c, t)
  {
  }

  /** Setters of different fields may be called in either order. */
  lemma SettersCommute<C, F, K>(c: Config<C, F, K>, s: Setting<C, F, K>, t: Setting<C, F, K>)
    requires FieldOf(s) != FieldOf(t)
    ensures Apply(Apply(c, s), t) == Apply(Apply(c, t), s)
  {
  }

  /** A field that no call of a chain assigns keeps its value. */
  lemma {:induction false} UntouchedFieldKept<C, F, K>(c: Config<C, F, K>, ss: seq<Setting<C, F, K>>, f: Field)
    requires forall i :: 0 <= i < |ss| ==> FieldOf(ss[i]) != f
    ensures Agree(ApplyAll(c, ss), c, f)
    decreases |ss|
  {
    if ss != [] {
      SetterFrame(c, ss[0]);
      UntouchedFieldKept(Apply(c, ss[0]), ss[1..], f);
    }
  }

  /** Once a static set is stored, no chain of setter calls makes it null again. */
  lemma {:induction false} JwksStaysSet<C, F, K>(c: Config<C, F, K>, ss: seq<Setting<C, F, K>>)
    requires c.jwks.Some?
    ensures ApplyAll(c, ss).jwks.Some?
    decreases |ss|
  {
    if ss != [] {
      JwksStaysSet(Apply(c, ss[0]), ss[1..]);
    }
  }

  /** Supplying both a static set and a URI, in any chain of calls, is rejected by
      `build()` unless a later call sets the URI back to null. */
  lemma {:induction false} BothSourcesPersist<C, F, K>(c: Config<C, F, K>, ss: seq<Setting<C, F, K>>)
    requires c.jwks.Some? && c.jwksUri.Some?
    requires forall i :: 0 <= i < |ss| ==> ss[i] != JwksUriSetting(None)
    ensures ApplyAll(c, ss).jwks.Some? && ApplyAll(c, ss).jwksUri.Some?
    decreases |ss|
  {
    if ss != [] {
      BothSourcesPersist(Apply(c, ss[0]), ss[1..]);
    }
  }

  class JwksProviderBuilder<C, F, K> {
    var jwks: Option<JwkSet>
    var jwksUri: Option<seq<byte>>
    var httpClient: Option<C>
    var requestFactory: Option<F>
    var cache: Option<K>
    var cacheTtl: Option<int>

    /** The current fields as a value. */
    function State(): Config<C, F, K>
      reads this
    {
      Config(jwks, jwksUri, httpClient, requestFactory, cache, cacheTtl)
    }

    /** Every field null except the TTL, which is one day. */
    constructor ()
      ensures State() == Initial()
    {
      jwks, jwksUri, httpClient, requestFactory := None, None, None, None;
      cache, cacheTtl := None, Some(DefaultCacheTtl);
    }

    method SetJwks(jwks: JwkSet) returns (self: JwksProviderBuilder<C, F, K>)
      modifies this
      ensures self == this
      ensures this.jwks == Some(jwks)
      ensures State() == Apply(old(State()), JwksSetting(jwks))
    {
      this.jwks := Some(jwks);
      self := this;
    }

    method SetJwksUri(jwksUri: Option<seq<byte>>) returns (self: JwksProviderBuilder<C, F, K>)
      modifies this
      ensures self == this
      ensures this.jwksUri == jwksUri
      ensures State() == Apply(old(State()), JwksUriSetting(jwksUri))
    {
      this.jwksUri := jwksUri;
      self := this;
    }

    method SetHttpClient(httpClient: Option<C>) returns (self: JwksProviderBuilder<C, F, K>)
      modifies this
      ensures self == this
      ensures this.httpClient == httpClient
      ensures State() == Apply(old(State()), HttpClientSetting(httpClient))
    {
      this.httpClient := httpClient;
      self := this;
    }

    method SetRequestFactory(requestFactory: Option<F>) returns (self: JwksProviderBuilder<C, F, K>)
      modifies this
      ensures self == this
      ensures this.requestFactory == requestFactory
      ensures State() == Apply(old(State()), RequestFactorySetting(requestFactory))
    {
      this.requestFactory := requestFactory;
      self := this;
    }

    method SetCache(cache: Option<K>) returns (self: JwksProviderBuilder<C, F, K>)
      modifies this
      ensures self == this
      ensures this.cache == cache
      ensures State() == Apply(old(State()), CacheSetting(cache))
    {
      this.cache := cache;
      self := this;
    }

    method SetCacheTtl(cacheTtl: Option<int>) returns (self: JwksProviderBuilder<C, F, K>)
      modifies this
      ensures self == this
      ensures this.cacheTtl == cacheTtl
      ensures State() == Apply(old(State()), CacheTtlSetting(cacheTtl))
    {
      this.cacheTtl := cacheTtl;
      self := this;
    }

    /** `$this->requestFactory ?? Psr17FactoryDiscovery::findRequestFactory()`:
        the environment is consulted only when no factory was configured. */
    method BuildRequestFactory(ambient: Ambient<C, F>) returns (r: Result<F, BuildError>, lookups: seq<Service>)
      ensures lookups == (if requestFactory.None? then [RequestFactoryService] else [])
      ensures Resolve(requestFactory, ambient.factory).Some? ==> r == Success(Resolve(requestFactory, ambient.factory).value)
      ensures Resolve(requestFactory, ambient.factory).None? ==> r == Failure(DiscoveryNotFound(RequestFactoryService))
    {
      if requestFactory.Some? {
        return Success(requestFactory.value), [];
      }
      lookups := [RequestFactoryService];
      if ambient.factory.Some? {
        r := Success(ambient.factory.value);
      } else {
        r := Failure(DiscoveryNotFound(RequestFactoryService));
      }
    }

    /** `$this->httpClient ?? Psr18ClientDiscovery::find()`: the environment is
        consulted only when no client was configured. */
    method BuildHttpClient(ambient: Ambient<C, F>) returns (r: Result<C, BuildError>, lookups: seq<Service>)
      ensures lookups == (if httpClient.None? then [HttpClientService] else [])
      ensures Resolve(httpClient, ambient.client).Some? ==> r == Success(Resolve(httpClient, ambient.client).value)
      ensures Resolve(httpClient, ambient.client).None? ==> r == Failure(DiscoveryNotFound(HttpClientService))
    {
      if httpClient.Some? {
        return Success(httpClient.value), [];
      }
      lookups := [HttpClientService];
      if ambient.client.Some? {
        r := Success(ambient.client.value);
      } else {
        r := Failure(DiscoveryNotFound(HttpClientService));
      }
    }

    /** `build()`. It reads the fields and changes none of them. `lookups` lists
        the discovery calls made, in order. */
    method Build(ambient: Ambient<C, F>) returns (r: Result<Provider<C, F, K>, BuildError>, lookups: seq<Service>)
      // A static set and a URI together are rejected before anything is looked up.
      ensures jwks.Some? && jwksUri.Some? ==> r == Failure(InvalidArgument(OnlyOneSource)) && lookups == []
      // Without a URI: the static set, or the empty set, in memory; nothing else is used.
      ensures jwksUri.None? ==> r == Success(Memory(jwks.GetOr(EmptyJwkSet))) && lookups == []
      // With a URI: discovery is consulted for exactly the collaborators not configured,
      // the client first; a failed client lookup ends the build.
      ensures jwks.None? && jwksUri.Some? ==>
        lookups == (if httpClient.None? then [HttpClientService] else [])
                   + (if requestFactory.None? && Resolve(httpClient, ambient.client).Some?
                      then [RequestFactoryService] else [])
      ensures jwks.None? && jwksUri.Some? ==>
        (r.Failure? <==> Resolve(httpClient, ambient.client).None? || Resolve(requestFactory, ambient.factory).None?)
      ensures jwks.None? && jwksUri.Some? && r.Failure? ==>
        r.error == DiscoveryNotFound(if Resolve(httpClient, ambient.client).None? then HttpClientService
                                     else RequestFactoryService)
      // On success with a URI: a Remote provider bound to that URI, behind a cache when one is set.
      ensures jwksUri.Some? && r.Success? ==>
        var remote := Remote(Resolve(httpClient, ambient.client).value,
                             Resolve(requestFactory, ambient.factory).value, jwksUri.value);
        r.value == if cache.Some? then Cached(remote, cache.value, Base64Url.Encode(jwksUri.value), cacheTtl)
                   else remote
      // The cache key identifies the URI: it decodes back to it.
      ensures r.Success? && r.value.Cached? ==> Base64Url.Decode(r.value.key) == jwksUri
    {
      if jwks.Some? && jwksUri.Some? {
        return Failure(InvalidArgument(OnlyOneSource)), [];
      }

      if jwksUri.None? {
        return Success(Memory(jwks.GetOr(EmptyJwkSet))), [];
      }

      var client, clientLookups := BuildHttpClient(ambient);
      if client.Failure? {
        return Failure(client.error), clientLookups;
      }
      var factory, factoryLookups := BuildRequestFactory(ambient);
      lookups := clientLookups + factoryLookups;
      if factory.Failure? {
        return Failure(factory.error), lookups;
      }
      var provider: Provider<C, F, K> := Remote(client.value, factory.value, jwksUri.value);

      if cache.Some? {
        Base64Url.DecodeEncode(jwksUri.value);
        provider := Cached(provider, cache.value, Base64Url.Encode(jwksUri.value), cacheTtl);
      }

      r := Success(provider);
    }
  }

  /** Building twice from the same builder gives equal results: `build()` changes no field. */
  method BuildTwice<C, F, K>(b: JwksProviderBuilder<C, F, K>, ambient: Ambient<C, F>)
    returns (first: Result<Provider<C, F, K>, BuildError>, second: Result<Provider<C, F, K>, BuildError>)
    ensures first == second
    ensures b.State() == old(b.State())
  {
    var lookups1, lookups2;
    first, lookups1 := b.Build(ambient);
    second, lookups2 := b.Build(ambient);
  }

  /** The same URI always gives the same key; different URIs give different keys. */
  lemma CacheKeyIdentifiesUri(uri1: seq<byte>, uri2: seq<byte>)
    ensures Base64Url.Encode(uri1) == Base64Url.Encode(uri2) <==> uri1 == uri2
  {
    Base64Url.EncodeInjective(uri1, uri2);
  }

  /** A new builder, untouched, serves the empty set from memory and looks nothing up. */
  method BuildFresh<C, F, K>(ambient: Ambient<C, F>) returns (r: Result<Provider<C, F, K>, BuildError>, lookups: seq<Service>)
    ensures r == Success(Memory(EmptyJwkSet)) && lookups == []
  {
    var b := new JwksProviderBuilder<C, F, K>();
    r, lookups := b.Build(ambient);
  }

  /** Chaining `setJwks` and a non-null `setJwksUri`, in either order, makes `build()` fail. */
  method BuildWithBothSources<C, F, K>(jwks: JwkSet, uri: seq<byte>, ambient: Ambient<C, F>)
    returns (uriFirst: Result<Provider<C, F, K>, BuildError>, jwksFirst: Result<Provider<C, F, K>, BuildError>)
    ensures uriFirst == Failure(InvalidArgument(OnlyOneSource))
    ensures jwksFirst == Failure(InvalidArgument(OnlyOneSource))
  {
    var lookups;
    var b := new JwksProviderBuilder<C, F, K>();
    var b1 := b.SetJwksUri(Some(uri));
    var b2 := b1.SetJwks(jwks);
    uriFirst, lookups := b2.Build(ambient);
    var c := new JwksProviderBuilder<C, F, K>();
    var c1 := c.SetJwks(jwks);
    var c2 := c1.SetJwksUri(Some(uri));
    jwksFirst, lookups := c2.Build(ambient);
  }

  /** A URI with a configured client, factory and cache and the default TTL:
      a cached remote provider, with no discovery. */
  method BuildCachedRemote<C, F, K>(uri: seq<byte>, client: C, factory: F, cache: K, ambient: Ambient<C, F>)
    returns (r: Result<Provider<C, F, K>, BuildError>, lookups: seq<Service>)
    ensures r == Success(Cached(Remote(client, factory, uri), cache, Base64Url.Encode(uri), Some(DefaultCacheTtl)))
    ensures lookups == []
  {
    var b := new JwksProviderBuilder<C, F, K>();
    var b1 := b.SetJwksUri(Some(uri));
    var b2 := b1.SetHttpClient(Some(client));
    var b3 := b2.SetRequestFactory(Some(factory));
    var b4 := b3.SetCache(Some(cache));
    assert b4 == b;
    assert b.State() == Config(None, Some(uri), Some(client), Some(factory), Some(cache), Some(DefaultCacheTtl));
    r, lookups := b.Build(ambient);
  }
}
