# Dynamic OpenID Connect scheme registration, modelled in Dafny

This is a model of how the OpenID Connect scheme controller of the OIDC sample
application registers identity providers at run time. An operator creates, edits or
deletes a configuration record: an integer id, an authority URL, a client id and a client
secret. After the record is saved, the controller registers, replaces or removes the
authentication scheme for it. Two process-wide framework stores hold that scheme:

- the **scheme provider**, which maps a scheme name to a scheme (name, display name,
  handler type);
- the **options monitor cache**, which maps a scheme name to its OpenID Connect options.

The model has these files:

- `SchemeKeys.dfy`: the scheme key `"oidc-" + id` and the callback path
  `"/signin-" + key`. The id is a C# `int`, written in decimal the way `Int32.ToString()`
  writes it. `ParseSchemeKey` is the inverse of the key derivation. It is used to prove
  that distinct ids never share a key or a callback path.
- `SchemeOptions.dfy`: the record, the options value and `BuildOptions`. `BuildOptions`
  copies the authority and the client credentials, then applies one fixed policy:
  - PKCE (RFC 7636);
  - `response_type=code` (section 3.1 of OpenID Connect Core 1.0);
  - `response_mode=form_post` (OAuth 2.0 Form Post Response Mode);
  - tokens saved;
  - HTTPS not required for the metadata fetch;
  - SameSite `Unspecified` on the nonce cookie and the correlation cookie.
- `AuthenticationStores.dfy`: the two stores as classes over maps, each with the
  operations the controller calls. The provider's `AddScheme` requires that the name is
  absent, as the framework's does. `RegistryState` holds both maps as one value.
  `Upserted` states what a load leaves in the stores, and `Unregistered` what a delete
  leaves.
- `Controllers.dfy`: the controller class. Its fields are the records table (a map), the
  two stores, and the post-configuration step `finalize`. The class invariant says three
  things:
  - every row is filed under its own id;
  - the cache holds options exactly for the provider's OpenID Connect schemes;
  - every cached entry equals `finalize(key, BuildOptions(r))`, where `r` is the stored
    record whose id the key names, so the cache never keeps stale options.

  `LoadScheme` follows the code's two branches. When the key is unknown, it adds. When
  the key is known, it removes the key from both stores and then adds. The verifier
  checks that the provider's "name must be absent" precondition holds on both paths. It
  also checks that the cache's `TryAdd` never keeps an older entry.
- `Scenario.dfy`: three client methods that use only the contracts. They create record
  1, edit its secret (and show that a mismatched route id is refused and that a body id
  of 0 inserts a copy), and delete it twice.

Some facts about the code that the model keeps:

- the authority URL is not validated;
- loading a key that is already registered replaces its scheme and options, with no
  "already registered" error;
- a failing post-configuration step is not rolled back;
- a replace is a remove followed by an add, not an atomic swap;
- deleting an unknown id throws, because `FindAsync` yields null and `Remove(null)`
  fails, so the result is a server error and not a no-op;
- an Edit whose body id is 0, the default of the generated key, is tracked by EF Core's
  `Update` as an insert: a new row is stored under the id the database assigns, and its
  scheme is loaded.

## Model

| member | source | states |
|---|---|---|
| `SchemeKeys.NatDigits` | OIDC/Controllers/OpenIdConnectSchemeController.cs:167 | the decimal text of a non-negative id is non-empty and made only of digits, and it is one digit exactly for ids below 10; from 10 on it does not start with '0', so there are no leading zeros |
| `SchemeKeys.Decimal` | OIDC/Controllers/OpenIdConnectSchemeController.cs:167 | the text of an `int` is non-empty and starts with a minus sign exactly when the id is negative |
| `SchemeKeys.NatDigitsRoundTrip` | OIDC/Controllers/OpenIdConnectSchemeController.cs:167 | reading the decimal digits of a natural number back gives that number |
| `SchemeKeys.DecimalRoundTrip` | OIDC/Controllers/OpenIdConnectSchemeController.cs:167 | reading the text of any integer back, sign included, gives that integer |
| `SchemeKeys.SchemeKey` | OIDC/Controllers/OpenIdConnectSchemeController.cs:167 | a scheme key is the prefix "oidc-" followed by the decimal text of the record id; the delete action uses the same derivation at line 152 |
| `SchemeKeys.ParseSchemeKeyIff` | OIDC/Controllers/OpenIdConnectSchemeController.cs:152 | a string parses to id `i` exactly when it is the key derived from `i`, so the key that delete computes names the record that load registered |
| `SchemeKeys.SchemeKeyInjective` | OIDC/Controllers/OpenIdConnectSchemeController.cs:166-167 | two record ids have the same scheme key if and only if they are equal: the key is unique per record |
| `SchemeKeys.CallbackPath` | OIDC/Controllers/OpenIdConnectSchemeController.cs:169 | the callback path is "/signin-" followed by the scheme key, with nothing else added |
| `SchemeKeys.CallbackPathInjective` | OIDC/Controllers/OpenIdConnectSchemeController.cs:169 | two record ids have the same callback path if and only if they are equal |
| `SchemeKeys.KeyOfRecordOne` | OIDC/Controllers/OpenIdConnectSchemeController.cs:167-169 | record 1 is registered as "oidc-1" with callback path "/signin-oidc-1" |
| `SchemeOptions.BuildOptions` | OIDC/Controllers/OpenIdConnectSchemeController.cs:168-179 | the options carry the record's callback path, authority, client id and client secret unchanged, and satisfy the fixed policy (PKCE, code, form_post, tokens saved, no HTTPS metadata requirement, both cookies SameSite Unspecified) |
| `SchemeOptions.BuildOptionsUniform` | OIDC/Controllers/OpenIdConnectSchemeController.cs:173-179 | any two records' options agree on every field except the four derived from the record |
| `SchemeOptions.BuildOptionsInjective` | OIDC/Controllers/OpenIdConnectSchemeController.cs:169-172 | two records give the same options if and only if they are the same record: nothing of the record is lost |
| `AuthenticationStores.SchemeProvider.GetScheme` | OIDC/Controllers/OpenIdConnectSchemeController.cs:181 | the lookup finds a scheme exactly when the name is registered, and then returns the registered scheme |
| `AuthenticationStores.SchemeProvider.AddScheme` | OIDC/Controllers/OpenIdConnectSchemeController.cs:198 | adding requires that the name is absent, and files the scheme under its name with nothing else changed |
| `AuthenticationStores.SchemeProvider.RemoveScheme` | OIDC/Controllers/OpenIdConnectSchemeController.cs:153 | removing drops the name if present and is a no-op otherwise |
| `AuthenticationStores.OptionsMonitorCache.TryAdd` | OIDC/Controllers/OpenIdConnectSchemeController.cs:200 | adds and reports true only when the name is not cached; otherwise it keeps the existing entry and reports false |
| `AuthenticationStores.OptionsMonitorCache.TryRemove` | OIDC/Controllers/OpenIdConnectSchemeController.cs:154 | drops the name and reports whether it was cached |
| `AuthenticationStores.Upserted` | OIDC/Controllers/OpenIdConnectSchemeController.cs:181-201 | after a load, the key maps to the scheme named and displayed as the key with the OpenID Connect handler, and to the given options; other keys in both stores are unchanged; store consistency is preserved |
| `AuthenticationStores.Unregistered` | OIDC/Controllers/OpenIdConnectSchemeController.cs:152-154 | after a delete, the key is in neither store; other keys keep their entries; store consistency is preserved |
| `AuthenticationStores.UnregisteredIdempotent` | OIDC/Controllers/OpenIdConnectSchemeController.cs:153-154 | deleting a key a second time changes nothing |
| `AuthenticationStores.UpsertedThenUnregistered` | OIDC/Controllers/OpenIdConnectSchemeController.cs:152-154 | a delete after a load leaves the stores as a delete alone would |
| `AuthenticationStores.UpsertedTwice` | OIDC/Controllers/OpenIdConnectSchemeController.cs:187-193 | a second load of a key replaces the first load's options entirely |
| `AuthenticationStores.DistinctKeysCommute` | OIDC/Controllers/OpenIdConnectSchemeController.cs:152-154 | a delete of one key (lines 152-154) and a load of a different key (lines 181-201) commute |
| `Controllers.UpsertedKeepsInvariant` | OIDC/Controllers/OpenIdConnectSchemeController.cs:181-201 | saving a record and loading its scheme preserves the whole invariant: keyed table, consistent stores, cache in step with the table |
| `Controllers.UpsertedMirrors` | OIDC/Controllers/OpenIdConnectSchemeController.cs:196-201 | after save and load, every cached entry is the finalized options of the current stored record its key names |
| `Controllers.UpsertedEntryMirrors` | OIDC/Controllers/OpenIdConnectSchemeController.cs:199-200 | the entry cached for the loaded key is the finalized options of the saved record, and every other entry still matches its own record |
| `Controllers.UnregisteredKeepsInvariant` | OIDC/Controllers/OpenIdConnectSchemeController.cs:148-154 | deleting a row and its scheme preserves the whole invariant |
| `Controllers.UnregisteredMirrors` | OIDC/Controllers/OpenIdConnectSchemeController.cs:152-154 | after a delete, no remaining cached entry refers to the deleted row |
| `Controllers.OpenIdConnectSchemeController.constructor` | OIDC/Controllers/OpenIdConnectSchemeController.cs:17-28 | the controller is handed the table, both stores and the post-configuration step, in a state that satisfies the invariant |
| `Controllers.OpenIdConnectSchemeController.AddScheme` | OIDC/Controllers/OpenIdConnectSchemeController.cs:196-201 | given a key absent from both stores, registers the scheme and caches the post-configured options under the key; the cache's TryAdd is proved to add |
| `Controllers.OpenIdConnectSchemeController.LoadScheme` | OIDC/Controllers/OpenIdConnectSchemeController.cs:164-194 | both branches, add when absent and remove-then-add when present, leave the stores equal to `Upserted` with the finalized freshly built options; the provider's precondition is proved on both |
| `Controllers.OpenIdConnectSchemeController.SaveThenLoad` | OIDC/Controllers/OpenIdConnectSchemeController.cs:87-89 | the record is saved first and its scheme loaded after; the invariant is kept |
| `Controllers.OpenIdConnectSchemeController.Create` | OIDC/Controllers/OpenIdConnectSchemeController.cs:45-55 | an invalid form shows the form and a failed save is a server error, both changing nothing; otherwise the row is stored under the assigned id, its scheme is loaded, and the result is a redirect |
| `Controllers.OpenIdConnectSchemeController.Edit` | OIDC/Controllers/OpenIdConnectSchemeController.cs:76-105 | a route id that differs from the body's id gives NotFound and changes nothing; an invalid form (form view), a missing row with a non-zero id (NotFound) and a failed save (server error) change nothing either; a body id of 0 is inserted under the assigned id and its scheme loaded; otherwise the row is updated and only then is its scheme reloaded |
| `Controllers.OpenIdConnectSchemeController.DeleteConfirmed` | OIDC/Controllers/OpenIdConnectSchemeController.cs:146-157 | for a stored id, a successful save removes the row and then removes the key from both stores; an unknown id or a failed save is a server error that changes nothing |

## Left out

- Concurrency and atomicity: the stores are shared across requests, and the replace at
  lines 190-192 is two separate calls. The model runs every action as one sequential
  step and proves nothing about interleavings, locking or atomic swaps.
- What `OpenIdConnectPostConfigureOptions.PostConfigure` does (metadata discovery,
  network fetch, defaults) is library code. It is the uninterpreted deterministic
  function `finalize`. The model does not cover an exception thrown from it. Such an
  exception would leave the scheme in the provider without cached options.
- EF Core persistence (`OidcDbContext.cs`, `SaveChangesAsync`, `FindAsync`): the table
  is a map. Whether a save fails is a boolean input. The identity value the database
  assigns on insert (by Create, or by Edit with body id 0) is an input that must be a
  fresh id.
- Edit's rethrow branch (lines 97-99) is not modelled. It needs the row to be missing
  when the update runs and present when `OpenIdConnectSchemeExists` checks, which only a
  concurrent request can cause. Sequentially, an update of a missing row with a non-zero
  id always gives NotFound, and a body id of 0 is an insert that raises no conflict.
- Model binding, `ModelState.IsValid` and anti-forgery: validity is a boolean input, and
  string properties are taken as non-null.
- The GET actions (Index, Create, Edit, Details, Delete at lines 31-40, 58-71 and
  108-141), views and redirects: the result is reduced to redirect, NotFound, form view
  or server error.
- `Program.cs` (service wiring, cookie scheme, SQLite) and `AccountController.cs` (the
  challenge and callback, handled by the framework's handler) are not part of this
  model. The scenario puts a cookie scheme in the provider only to show that other
  schemes are left untouched.
- Options fields the controller does not set keep the framework's defaults and are not
  represented.
- `SchemeKeys.Decimal`: the negative sign of the current culture is taken to be "-".
  With invariant formatting the key text is exact, but under a culture with a different
  negative sign the text of a negative id would differ.
