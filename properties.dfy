/**
 * What a client of the service can rely on, derived from the operations'
 * contracts alone: round trips through one key, namespace isolation by prefix,
 * the default-prefix lookup of `getAll`, and the probe's fallback and recovery.
 */
module Properties {
  import opened Wrappers
  import opened NativeMedium
  import opened CapabilityProbe
  import opened Facade

  /** `put(k, v, opts)` then `get(k, opts)` returns `v`; no other medium key changes. */
  method PutThenGet(service: SessionStorageService, key: string, value: string, options: Option<Options>)
    returns (read: Option<string>)
    requires service.Valid()
    modifies service.backend.Obj()
    ensures read == Some(value)
    ensures forall name :: name != KeyName(CalcOptions(service.defaults, options), key) ==>
              Lookup(service.Entries(), name) == Lookup(old(service.Entries()), name)
  {
    service.Put(key, value, options);
    read := service.Get(key, options);
  }

  /** After `remove(k, opts)`, `get(k, opts)` is absent; no other medium key changes. */
  method RemoveThenGet(service: SessionStorageService, key: string, options: Option<Options>)
    returns (read: Option<string>)
    requires service.Valid()
    modifies service.backend.Obj()
    ensures read == None
    ensures forall name :: name != KeyName(CalcOptions(service.defaults, options), key) ==>
              Lookup(service.Entries(), name) == Lookup(old(service.Entries()), name)
  {
    service.Remove(key, options);
    read := service.Get(key, options);
  }

  /** `putObject` then `getObject` returns the value, for a codec whose output `fromJson` undoes. */
  method PutObjectThenGetObject<V>(service: SessionStorageService, key: string, value: V,
                                   options: Option<Options>, toJson: V -> string, fromJson: string -> V)
    returns (read: ObjectValue<V>)
    requires service.Valid()
    requires fromJson(toJson(value)) == value && toJson(value) != ""
    modifies service.backend.Obj()
    ensures read == Parsed(value)
  {
    service.PutObject(key, value, options, toJson);
    read := service.GetObject(key, options, fromJson);
    ObjectRoundTrip(value, toJson, fromJson);
  }

  /** The four host methods, all present. */
  const AllMethods: set<Call> := {GetItemCall, SetItemCall, RemoveItemCall, ClearCall}

  /**
   * Default prefix "", then `put("x", "1", {prefix: "app:"})`: `get("x")`
   * is absent while `get("x", {prefix: "app:"})` is "1".
   */
  method PrefixIsolation() returns (plain: Option<string>, prefixed: Option<string>)
    ensures plain == None && prefixed == Some("1")
  {
    var host := new NativeStorage(map[], false, false, {});
    var service := Initialize(StorageObject(AllMethods), host, map[]);
    ghost var empty: map<string, string> := map[];
    assert empty - {TEST} == empty;
    var app := Some(map["prefix" := "app:"]);
    service.Put("x", "1", app);
    plain := service.Get("x", None);
    prefixed := service.Get("x", app);
  }

  /**
   * `getAll({prefix: "app:"})` finds the entry "app:x" under the key "x", but
   * reads its value through the default prefix, from the medium key "x".
   */
  method GetAllReadsDefaultPrefix() returns (all: map<string, ObjectValue<string>>)
    ensures all == map["x" := Absent]
  {
    var host := new NativeStorage(map[], false, false, {});
    var service := Initialize(StorageObject(AllMethods), host, map[]);
    ghost var empty: map<string, string> := map[];
    assert empty - {TEST} == empty;
    var app := Some(map["prefix" := "app:"]);
    assert service.Entries() == empty;
    assert KeyName(CalcOptions(map[], app), "x") == "app:x";
    service.Put("x", "1", app);
    ghost var opts := CalcOptions(service.defaults, app);
    assert opts == map["prefix" := "app:"];
    assert service.Entries() == map["app:x" := "1"];
    var fromJson := (s: string) => s;
    all := service.GetAll(app, fromJson);
    OnlyEntryX(all, opts, service.Entries(), fromJson);
  }

  /** The result `getAll` promises for the medium {"app:x": "1"}, prefix "app:" and default prefix "". */
  lemma OnlyEntryX(all: map<string, ObjectValue<string>>, opts: Options,
                   entries: map<string, string>, fromJson: string -> string)
    requires opts == map["prefix" := "app:"] && entries == map["app:x" := "1"]
    requires forall key :: key in all <==> KeyName(opts, key) in entries
    requires forall key :: key in all ==> all[key] == FromRaw(Lookup(entries, KeyName(map[], key)), fromJson)
    ensures all == map["x" := Absent]
  {
    assert KeyName(opts, "x") == "app:x";
    assert "x" in all;
    forall key | key in all
      ensures key == "x"
    {
      StripKeyName(opts, key, "x");
    }
    assert KeyName(map[], "x") == "x";
  }

  /**
   * A host whose `setItem` always raises: the service reports not enabled
   * and still stores and returns values, in memory.
   */
  method BlockedWrites() returns (enabled: bool, read: Option<string>)
    ensures !enabled && read == Some("1")
  {
    var host := new NativeStorage(map[], false, false, {SetItemCall});
    var service := Initialize(StorageObject(AllMethods), host, map[]);
    enabled := service.IsEnabled();
    service.Put("x", "1", None);
    read := service.Get("x", None);
  }

  /**
   * A host whose first read-back comes back stale: one clear repairs it, the
   * native medium is selected, and the clear has wiped the prior entries.
   */
  method StaleReadRecovered() returns (enabled: bool, entries: map<string, string>)
    ensures enabled && entries == map[]
  {
    var host := new NativeStorage(map["a" := "b"], true, false, {});
    var service := Initialize(StorageObject(AllMethods), host, map[]);
    ghost var empty: map<string, string> := map[];
    assert empty - {TEST} == empty;
    enabled := service.IsEnabled();
    entries := service.Entries();
  }

  /** A host whose reads always come back absent is never selected. */
  method BrokenReadsFallBack() returns (enabled: bool)
    ensures !enabled
  {
    var host := new NativeStorage(map[], false, true, {});
    var service := Initialize(StorageObject(AllMethods), host, map[]);
    enabled := service.IsEnabled();
  }

  /**
   * On the native medium, `put("isMemoryStorage", "1")` stores an item that
   * the host exposes as a property of that name, so `isEnabled()` turns false.
   */
  method MarkerItemHidesNative() returns (before: bool, after: bool)
    ensures before && !after
  {
    var host := new NativeStorage(map[], false, false, {});
    var service := Initialize(StorageObject(AllMethods), host, map[]);
    ghost var empty: map<string, string> := map[];
    assert empty - {TEST} == empty;
    before := service.IsEnabled();
    assert KeyName(CalcOptions(map[], None), MarkerName) == MarkerName;
    service.Put(MarkerName, "1", None);
    after := service.IsEnabled();
  }
}
