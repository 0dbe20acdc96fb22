/**
 * The OpenID Connect scheme controller: the create, edit and delete actions
 * that save a configuration record and then register, replace or remove the
 * matching authentication scheme in the two framework stores.
 *
 * The database table is the map `records`. Whether SaveChanges fails and the
 * id the database assigns on insert are parameters. Post-configuration of the
 * options (metadata discovery and defaults, done by a library) is the
 * function `finalize`, applied before the options are cached.
 */
module Controllers {
  import opened Wrappers
  import opened SchemeKeys
  import opened SchemeOptions
  import opened AuthenticationStores

  /** The outcome of an action, as the browser sees it. */
  datatype ActionResult = RedirectToIndex | NotFound | FormView | ServerError

  /** Every row is filed under its own id. */
  ghost predicate Keyed(records: map<int32, SchemeRecord>)
  {
    forall id :: id in records ==> records[id].id == id
  }

  /** The cached options under `key` are the finalized options of the stored record that `key` names. */
  ghost predicate EntryMirrors(
    s: RegistryState, records: map<int32, SchemeRecord>,
    finalize: (string, OidcOptions) -> OidcOptions, key: string)
  {
    && key in s.options
    && ParseSchemeKey(key).Some?
    && ParseSchemeKey(key).value in records
    && s.options[key] == finalize(key, BuildOptions(records[ParseSchemeKey(key).value]))
  }

  /** No cached options are stale: each belongs to a stored record and reflects its current contents. */
  ghost predicate Mirrors(s: RegistryState, records: map<int32, SchemeRecord>, finalize: (string, OidcOptions) -> OidcOptions)
  {
    forall key {:trigger EntryMirrors(s, records, finalize, key)} :: key in s.options ==> EntryMirrors(s, records, finalize, key)
  }

  /** What holds between requests: the table, the two stores, and the agreement of the cache with the table. */
  ghost predicate Invariant(s: RegistryState, records: map<int32, SchemeRecord>, finalize: (string, OidcOptions) -> OidcOptions)
  {
    Keyed(records) && Consistent(s) && Mirrors(s, records, finalize)
  }

  /** Saving `rec` and loading its scheme keeps the stores consistent and every cached entry in step with the table. */
  lemma UpsertedKeepsInvariant(
    s: RegistryState, records: map<int32, SchemeRecord>,
    finalize: (string, OidcOptions) -> OidcOptions, rec: SchemeRecord)
    requires Invariant(s, records, finalize)
    ensures var key := SchemeKey(rec.id);
      Invariant(Upserted(s, key, finalize(key, BuildOptions(rec))), records[rec.id := rec], finalize)
  {
    UpsertedMirrors(s, records, finalize, rec);
  }

  lemma UpsertedMirrors(
    s: RegistryState, records: map<int32, SchemeRecord>,
    finalize: (string, OidcOptions) -> OidcOptions, rec: SchemeRecord)
    requires Mirrors(s, records, finalize)
    ensures var key := SchemeKey(rec.id);
      Mirrors(Upserted(s, key, finalize(key, BuildOptions(rec))), records[rec.id := rec], finalize)
  {
    var key := SchemeKey(rec.id);
    var s', records' := Upserted(s, key, finalize(key, BuildOptions(rec))), records[rec.id := rec];
    forall k | k in s'.options
      ensures EntryMirrors(s', records', finalize, k)
    {
      UpsertedEntryMirrors(s, records, finalize, rec, k);
    }
  }

  /** One cached entry after saving `rec` and loading its scheme: the new one, or an old one still in step. */
  lemma UpsertedEntryMirrors(
    s: RegistryState, records: map<int32, SchemeRecord>,
    finalize: (string, OidcOptions) -> OidcOptions, rec: SchemeRecord, k: string)
    requires Mirrors(s, records, finalize)
    requires k in s.options || k == SchemeKey(rec.id)
    ensures var key := SchemeKey(rec.id);
      EntryMirrors(Upserted(s, key, finalize(key, BuildOptions(rec))), records[rec.id := rec], finalize, k)
  {
    var key := SchemeKey(rec.id);
    var s', records' := Upserted(s, key, finalize(key, BuildOptions(rec))), records[rec.id := rec];
    if k == key {
      ParseSchemeKeyIff(key, rec.id);
    } else {
      assert EntryMirrors(s, records, finalize, k);
      var id := ParseSchemeKey(k).value;
      ParseSchemeKeyIff(k, id);
      SchemeKeyInjective(id, rec.id);
      assert s'.options[k] == s.options[k] && records'[id] == records[id];
    }
  }

  /** Deleting record `id` and unloading its scheme keeps the stores consistent and every remaining cached entry in step with the table. */
  lemma UnregisteredKeepsInvariant(
    s: RegistryState, records: map<int32, SchemeRecord>,
    finalize: (string, OidcOptions) -> OidcOptions, id: int32)
    requires Invariant(s, records, finalize)
    ensures Invariant(Unregistered(s, SchemeKey(id)), records - {id}, finalize)
  {
    UnregisteredMirrors(s, records, finalize, id);
  }

  lemma UnregisteredMirrors(
    s: RegistryState, records: map<int32, SchemeRecord>,
    finalize: (string, OidcOptions) -> OidcOptions, id: int32)
    requires Mirrors(s, records, finalize)
    ensures Mirrors(Unregistered(s, SchemeKey(id)), records - {id}, finalize)
  {
    var s', records' := Unregistered(s, SchemeKey(id)), records - {id};
    forall k | k in s'.options
      ensures EntryMirrors(s', records', finalize, k)
    {
      assert EntryMirrors(s, records, finalize, k);
      var other := ParseSchemeKey(k).value;
      ParseSchemeKeyIff(k, other);
    }
  }

  /** Removing a key and adding it back leaves the same map as overwriting it. */
  lemma RemoveThenAdd<V>(m: map<string, V>, key: string, v: V)
    ensures (m - {key})[key := v] == m[key := v]
  {
    assert ((m - {key})[key := v]).Keys == m[key := v].Keys;
  }

  class OpenIdConnectSchemeController {
    /** The OpenIdConnectSchemes table. */
    var records: map<int32, SchemeRecord>
    const provider: SchemeProvider
    const cache: OptionsMonitorCache
    /** OpenIdConnectPostConfigureOptions.PostConfigure, as a function of the scheme name and the options. */
    const finalize: (string, OidcOptions) -> OidcOptions

    ghost function State(): RegistryState
      reads provider, cache
    {
      RegistryState(provider.schemes, cache.entries)
    }

    ghost predicate Valid()
      reads this, provider, cache
    {
      Invariant(State(), records, finalize)
    }

    constructor (
      records: map<int32, SchemeRecord>, provider: SchemeProvider, cache: OptionsMonitorCache,
      finalize: (string, OidcOptions) -> OidcOptions)
      requires Invariant(RegistryState(provider.schemes, cache.entries), records, finalize)
      ensures Valid()
      ensures this.records == records && this.provider == provider && this.cache == cache && this.finalize == finalize
    {
      this.records := records;
      this.provider := provider;
      this.cache := cache;
      this.finalize := finalize;
    }

    /** Registers `key` in both stores; the provider's no-duplicate precondition is the caller's to meet. */
    method AddScheme(key: string, options: OidcOptions)
      requires key !in provider.schemes && key !in cache.entries
      modifies provider, cache
      ensures provider.schemes == old(provider.schemes)[key := OidcScheme(key)]
      ensures cache.entries == old(cache.entries)[key := finalize(key, options)]
    {
      provider.AddScheme(OidcScheme(key));
      var finalized := finalize(key, options);
      var added := cache.TryAdd(key, finalized);
    }

    /**
     * Builds the options for `rec` and registers them under its key: a plain
     * add when the key is unknown, otherwise remove from both stores, then add.
     */
    method LoadScheme(rec: SchemeRecord)
      requires Consistent(State())
      modifies provider, cache
      ensures var key := SchemeKey(rec.id);
        State() == Upserted(old(State()), key, finalize(key, BuildOptions(rec)))
    {
      var key := SchemeKey(rec.id);
      var options := BuildOptions(rec);
      ghost var before := State();
      var existing := provider.GetScheme(key);
      if existing.None? {
        assert key !in cache.entries;
        AddScheme(key, options);
      } else {
        provider.RemoveScheme(key);
        var removed := cache.TryRemove(key);
        AddScheme(key, options);
        RemoveThenAdd(before.schemes, key, OidcScheme(key));
        RemoveThenAdd(before.options, key, finalize(key, options));
      }
    }

    /** Saves `rec` to the table and then loads its scheme: the tail Create and Edit share. */
    method SaveThenLoad(rec: SchemeRecord)
      requires Valid()
      modifies this, provider, cache
      ensures Valid()
      ensures records == old(records)[rec.id := rec]
      ensures var key := SchemeKey(rec.id);
        State() == Upserted(old(State()), key, finalize(key, BuildOptions(rec)))
    {
      UpsertedKeepsInvariant(State(), records, finalize, rec);
      records := records[rec.id := rec];
      LoadScheme(rec);
    }

    /**
     * POST Create: when the form is valid, inserts the record under the id the
     * database assigns, and only once that is saved loads its scheme.
     */
    method Create(form: SchemeRecord, modelValid: bool, assignedId: int32, saveFails: bool) returns (r: ActionResult)
      requires Valid()
      requires assignedId !in records
      modifies this, provider, cache
      ensures Valid()
      ensures r == (if !modelValid then FormView else if saveFails then ServerError else RedirectToIndex)
      ensures var rec := form.(id := assignedId); var key := SchemeKey(assignedId);
        if r == RedirectToIndex then
          records == old(records)[assignedId := rec]
          && State() == Upserted(old(State()), key, finalize(key, BuildOptions(rec)))
        else
          records == old(records) && State() == old(State())
    {
      if !modelValid {
        return FormView;
      }
      if saveFails {
        return ServerError;
      }
      SaveThenLoad(form.(id := assignedId));
      return RedirectToIndex;
    }

    /**
     * POST Edit: refuses a body whose id differs from the route id; when the
     * form is valid, updates the stored row and only once that is saved
     * reloads its scheme. A body id of 0 is the default of the generated key,
     * so the update is tracked as an insert: the row is stored under the id
     * the database assigns and the scheme is loaded under that id's key.
     * Updating any other id that is not stored makes the save report a
     * concurrency conflict, which is answered with NotFound.
     */
    method Edit(id: int32, form: SchemeRecord, modelValid: bool, assignedId: int32, saveFails: bool) returns (r: ActionResult)
      requires Valid()
      requires assignedId !in records
      modifies this, provider, cache
      ensures Valid()
      ensures r == (
        if id != form.id then NotFound
        else if !modelValid then FormView
        else if form.id != 0 && form.id !in old(records) then NotFound
        else if saveFails then ServerError
        else RedirectToIndex)
      ensures var rec := if form.id == 0 then form.(id := assignedId) else form;
        var key := SchemeKey(rec.id);
        if r == RedirectToIndex then
          records == old(records)[rec.id := rec]
          && State() == Upserted(old(State()), key, finalize(key, BuildOptions(rec)))
        else
          records == old(records) && State() == old(State())
    {
      if id != form.id {
        return NotFound;
      }
      if !modelValid {
        return FormView;
      }
      if form.id == 0 {
        // The key holds its default value: the update inserts a new row.
        if saveFails {
          return ServerError;
        }
        SaveThenLoad(form.(id := assignedId));
        return RedirectToIndex;
      }
      if form.id !in records {
        // The update touched no row: DbUpdateConcurrencyException, and the row does not exist.
        return NotFound;
      }
      if saveFails {
        return ServerError;
      }
      SaveThenLoad(form);
      return RedirectToIndex;
    }

    /**
     * POST Delete: removes the stored row and then the scheme under its key
     * from both stores. An unknown id makes the removal throw.
     */
    method DeleteConfirmed(id: int32, saveFails: bool) returns (r: ActionResult)
      requires Valid()
      modifies this, provider, cache
      ensures Valid()
      ensures r == (if id !in old(records) || saveFails then ServerError else RedirectToIndex)
      ensures if r == RedirectToIndex then
          records == old(records) - {id} && State() == Unregistered(old(State()), SchemeKey(id))
        else
          records == old(records) && State() == old(State())
    {
      if id !in records {
        // FindAsync found nothing, and removing null throws.
        return ServerError;
      }
      var rec := records[id];
      if saveFails {
        return ServerError;
      }
      UnregisteredKeepsInvariant(State(), records, finalize, id);
      records := records - {id};
      var key := SchemeKey(rec.id);
      provider.RemoveScheme(key);
      var removed := cache.TryRemove(key);
      return RedirectToIndex;
    }
  }
}
