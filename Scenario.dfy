/**
 * Clients of the controller: create record 1, change its secret, delete it.
 * Only the contracts of the controller are used to follow the two stores.
 */
module ControllerScenario {
  import opened Wrappers
  import opened SchemeKeys
  import opened SchemeOptions
  import opened AuthenticationStores
  import opened Controllers

  method CreateRecordOne(finalize: (string, OidcOptions) -> OidcOptions)
  {
    var cookies := AuthenticationScheme("Cookies", Option.None, OtherHandler("CookieAuthenticationHandler"));
    var provider := new SchemeProvider(map["Cookies" := cookies]);
    var cache := new OptionsMonitorCache(map[]);
    var controller := new OpenIdConnectSchemeController(map[], provider, cache, finalize);
    var key := SchemeKey(1);

    var form := SchemeRecord(0, "https://idp.example/", "abc", "s3cret");
    var r := controller.Create(form, true, 1, false);
    var first := form.(id := 1);
    assert r == RedirectToIndex;
    assert provider.schemes[key] == OidcScheme(key) && provider.schemes["Cookies"] == cookies;
    assert cache.entries[key] == finalize(key, BuildOptions(first));
    KeyOfRecordOne();
    assert BuildOptions(first).callbackPath == "/signin-oidc-1";
  }

  method EditRecordOne(controller: OpenIdConnectSchemeController, first: SchemeRecord, newId: int32)
    requires controller.Valid() && first.id == 1 && 1 in controller.records
    requires newId !in controller.records
    modifies controller, controller.provider, controller.cache
  {
    var key := SchemeKey(1);
    var edited := first.(clientSecret := "s3cret2");
    ghost var before := controller.cache.entries;
    var r := controller.Edit(2, edited, true, newId, false);
    assert r == NotFound && controller.cache.entries == before;
    r := controller.Edit(1, edited, true, newId, false);
    assert r == RedirectToIndex;
    assert controller.cache.entries[key] == controller.finalize(key, BuildOptions(edited));
    assert BuildOptions(edited).clientSecret == "s3cret2";
    // A body id of 0 inserts a copy under the id the database assigns.
    r := controller.Edit(0, edited.(id := 0), true, newId, false);
    assert r == RedirectToIndex;
    assert controller.records[newId] == edited.(id := newId);
    assert SchemeKey(newId) in controller.provider.schemes;
  }

  method DeleteRecordOne(controller: OpenIdConnectSchemeController)
    requires controller.Valid() && 1 in controller.records
    modifies controller, controller.provider, controller.cache
  {
    var key := SchemeKey(1);
    var r := controller.DeleteConfirmed(1, false);
    assert r == RedirectToIndex;
    assert key !in controller.provider.schemes && key !in controller.cache.entries;
    r := controller.DeleteConfirmed(1, false);
    assert r == ServerError;
  }
}
