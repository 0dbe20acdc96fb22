/**
 * The two process-wide framework stores that dynamic registration changes:
 * the authentication scheme provider (scheme name -> scheme) and the options
 * monitor cache of OpenID Connect options (scheme name -> options).
 *
 * Each store is a class over a map, with the operations the controller calls.
 * `RegistryState` is the pair of maps as a value, and `Upserted` and
 * `Unregistered` state what a load and a delete leave in it.
 */
module AuthenticationStores {
  import opened Wrappers
  import opened SchemeOptions

  /** The handler type a scheme is dispatched to. */
  datatype HandlerType = OpenIdConnectHandler | OtherHandler(typeName: string)

  datatype AuthenticationScheme = AuthenticationScheme(name: string, displayName: Option<string>, handlerType: HandlerType)

  /** The scheme the controller registers under `key`: name and display name are both the key. */
  function OidcScheme(key: string): AuthenticationScheme
  {
    AuthenticationScheme(key, Some(key), OpenIdConnectHandler)
  }

  /** The scheme provider: at most one scheme per name. */
  class SchemeProvider {
    var schemes: map<string, AuthenticationScheme>

    constructor (initial: map<string, AuthenticationScheme>)
      ensures schemes == initial
    {
      schemes := initial;
    }

    /** GetSchemeAsync: the scheme registered under `name`, if any. */
    method GetScheme(name: string) returns (r: Option<AuthenticationScheme>)
      ensures r.Some? <==> name in schemes
      ensures r.Some? ==> r.value == schemes[name]
    {
      r := if name in schemes then Some(schemes[name]) else Option.None;
    }

    /** AddScheme: the framework refuses a name that is already registered. */
    method AddScheme(scheme: AuthenticationScheme)
      requires scheme.name !in schemes
      modifies this
      ensures schemes == old(schemes)[scheme.name := scheme]
    {
      schemes := schemes[scheme.name := scheme];
    }

    /** RemoveScheme: removes the name if present; an absent name is left alone. */
    method RemoveScheme(name: string)
      modifies this
      ensures schemes == old(schemes) - {name}
    {
      schemes := schemes - {name};
    }
  }

  /** The options monitor cache for OpenID Connect options. */
  class OptionsMonitorCache {
    var entries: map<string, OidcOptions>

    constructor (initial: map<string, OidcOptions>)
      ensures entries == initial
    {
      entries := initial;
    }

    /** TryAdd: adds only when the name is not cached yet; an existing entry is kept. */
    method TryAdd(name: string, options: OidcOptions) returns (added: bool)
      modifies this
      ensures added <==> name !in old(entries)
      ensures entries == if added then old(entries)[name := options] else old(entries)
    {
      added := name !in entries;
      if added {
        entries := entries[name := options];
      }
    }

    /** TryRemove: removes the name if cached and says whether it was. */
    method TryRemove(name: string) returns (removed: bool)
      modifies this
      ensures removed <==> name in old(entries)
      ensures entries == old(entries) - {name}
    {
      removed := name in entries;
      entries := entries - {name};
    }
  }

  /** The contents of both stores, as a value. */
  datatype RegistryState = RegistryState(schemes: map<string, AuthenticationScheme>, options: map<string, OidcOptions>)

  /**
   * What the stores keep true between requests: each scheme is filed under its
   * own name, and the cached OpenID Connect options belong exactly to the
   * schemes whose handler is the OpenID Connect handler.
   */
  ghost predicate Consistent(s: RegistryState)
  {
    && (forall k :: k in s.schemes ==> s.schemes[k].name == k)
    && (forall k :: k in s.options ==> k in s.schemes && s.schemes[k].handlerType == OpenIdConnectHandler)
    && (forall k :: k in s.schemes && s.schemes[k].handlerType == OpenIdConnectHandler ==> k in s.options)
  }

  /** The stores after `key` is (re)registered with the finalized `options`. */
  function Upserted(s: RegistryState, key: string, options: OidcOptions): (r: RegistryState)
    ensures key in r.schemes && r.schemes[key] == OidcScheme(key)
    ensures key in r.options && r.options[key] == options
    ensures r.schemes.Keys == s.schemes.Keys + {key} && r.options.Keys == s.options.Keys + {key}
    ensures forall k :: k in s.schemes && k != key ==> r.schemes[k] == s.schemes[k]
    ensures forall k :: k in s.options && k != key ==> r.options[k] == s.options[k]
    ensures Consistent(s) ==> Consistent(r)
  {
    RegistryState(s.schemes[key := OidcScheme(key)], s.options[key := options])
  }

  /** The stores after `key` is removed from both. */
  function Unregistered(s: RegistryState, key: string): (r: RegistryState)
    ensures key !in r.schemes && key !in r.options
    ensures r.schemes.Keys == s.schemes.Keys - {key} && r.options.Keys == s.options.Keys - {key}
    ensures forall k :: k in r.schemes ==> r.schemes[k] == s.schemes[k]
    ensures forall k :: k in r.options ==> r.options[k] == s.options[k]
    ensures Consistent(s) ==> Consistent(r)
  {
    RegistryState(s.schemes - {key}, s.options - {key})
  }

  /** Removing a key twice is the same as removing it once. */
  lemma UnregisteredIdempotent(s: RegistryState, key: string)
    ensures Unregistered(Unregistered(s, key), key) == Unregistered(s, key)
  {
  }

  /** A load followed by a delete of the same key leaves no trace of the load. */
  lemma UpsertedThenUnregistered(s: RegistryState, key: string, options: OidcOptions)
    ensures Unregistered(Upserted(s, key, options), key) == Unregistered(s, key)
  {
    assert s.schemes[key := OidcScheme(key)] - {key} == s.schemes - {key};
    assert s.options[key := options] - {key} == s.options - {key};
  }

  /** A second load of a key replaces the first load's options entirely. */
  lemma UpsertedTwice(s: RegistryState, key: string, o1: OidcOptions, o2: OidcOptions)
    ensures Upserted(Upserted(s, key, o1), key, o2) == Upserted(s, key, o2)
  {
    assert s.options[key := o1][key := o2] == s.options[key := o2];
  }

  /** Loads and deletes of different keys do not interfere. */
  lemma DistinctKeysCommute(s: RegistryState, k1: string, o1: OidcOptions, k2: string)
    requires k1 != k2
    ensures Unregistered(Upserted(s, k1, o1), k2) == Upserted(Unregistered(s, k2), k1, o1)
  {
    var sc := OidcScheme(k1);
    assert s.schemes[k1 := sc] - {k2} == (s.schemes - {k2})[k1 := sc] by {
      assert (s.schemes[k1 := sc] - {k2}).Keys == ((s.schemes - {k2})[k1 := sc]).Keys;
    }
    assert s.options[k1 := o1] - {k2} == (s.options - {k2})[k1 := o1] by {
      assert (s.options[k1 := o1] - {k2}).Keys == ((s.options - {k2})[k1 := o1]).Keys;
    }
  }
}
