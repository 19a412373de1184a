# ngSessionStorage in Dafny

A model of the AngularJS `$sessionStorage` service from `angular-sessionstorage.js`, with proofs about it. The model covers three parts.

- **The capability probe.** It runs once at start-up and picks the backing store. It returns the host's `window.sessionStorage` only if four things hold. The reference can be obtained. It is an object. It has `getItem`, `setItem`, `removeItem` and `clear`. A sentinel write followed by a read-back round-trips, with one `clear`-and-retry allowed. On every other path it returns a fresh `MemoryStorage`. The one exception is a null reference: the code as written raises there (see "## Findings"), and the model's `Probe` takes the corrected branch and falls back.
- **`MemoryStorage`.** This is the in-memory fallback: a class over a `map<string, string>`, with `getItem`, `setItem` and `removeItem`. Its `length` is computed from the map on each access. It has the `isMemoryStorage` marker.
- **The service facade.** It covers `get`, `getObject`, `getAll`, `put`, `putObject`, `remove` and `isEnabled`. It also covers the key prefixing `[prefix, key].join('')` and the options merge `calcOptions`.

Modules, one per component:

- `Wrappers` (wrappers.dfy): `Option`, `Result` (a call that may raise), `Outcome`, `Lookup`.
- `NativeMedium` (native_medium.dfy): the host's session storage. `HostState` is its abstract value. `NativeStorage` is the host object, updated in place.
- `MemoryStore` (memory_storage.dfy): the `MemoryStorage` class.
- `CapabilityProbe` (probe.dfy): the reference kinds, the structural checks, the functional check as a specification function, and the imperative `Probe` method.
- `Facade` (facade.dfy): options, key names, `getObject`'s conditional, and the `SessionStorageService` class.
- `Properties` (properties.dfy): client methods that derive the round-trip, isolation and probe scenarios from the operations' contracts alone.

### The host storage

The native medium is modelled as a store with a script, so that every path of the probe can be reached:

- `stale`: reads come back absent until a `clear`. This is a corrupt prior state that one clear repairs.
- `broken`: reads always come back absent.
- `failing`: the set of host methods that raise whenever they are called.

A mismatching read-back is modelled as an absent value. The probe compares with `!==`, so any wrong value takes the same branch.

### JSON

`angular.toJson` and `angular.fromJson` are code outside the library. They are function parameters (`toJson`, `fromJson`). The `putObject`/`getObject` round trip is proved for any codec with two properties: `fromJson` undoes `toJson`, and `toJson` never yields the empty string.

### Behaviour of the code worth noting

- `getAll` reads each value through `this.getObject(key)` with no options (angular-sessionstorage.js:128). So the value comes from the *default* prefix, not from the prefix that selected the key. The model does the same. `Properties.GetAllReadsDefaultPrefix` shows a case where the key is found but its value is absent.
- `MemoryStorage` has no `clear` and no enumeration method (angular-sessionstorage.js:204-227). `getAll` enumerates it with `for…in` over its own properties, which in the model are the map's keys.
- `getObject` returns a falsy raw value unchanged (angular-sessionstorage.js:103). That covers the absence marker and also the empty string.
- `isEnabled` reads the property `isMemoryStorage` of the medium object (angular-sessionstorage.js:189). A stored item of that name is read as that property. On `MemoryStorage` it is an own property that shadows the prototype's marker. On the host's storage object it is a named property. `Properties.MarkerItemHidesNative` shows `isEnabled()` turning false on the native medium after `put("isMemoryStorage", "1")`.

## Model

| member | source | states |
|---|---|---|
| NativeMedium.NativeStorage.constructor | angular-sessionstorage.js:230 | the host object starts in the given state |
| NativeMedium.NativeStorage.GetItem | angular-sessionstorage.js:258 | the read raises iff `getItem` is failing; it is absent on a stale or broken host; otherwise it is the stored value |
| NativeMedium.NativeStorage.SetItem | angular-sessionstorage.js:256 | it raises iff `setItem` is failing, and then nothing changes; otherwise the entry is overwritten |
| NativeMedium.NativeStorage.RemoveItem | angular-sessionstorage.js:267 | it raises iff `removeItem` is failing; otherwise the key is deleted |
| NativeMedium.NativeStorage.Clear | angular-sessionstorage.js:259 | it raises iff `clear` is failing; otherwise the store is emptied and a stale state is repaired; every call, raising or not, adds one to the ghost count `clearCalls` |
| MemoryStore.MemoryStorage.constructor | angular-sessionstorage.js:204-210 | a new fallback store is empty |
| MemoryStore.MemoryStorage.Length | angular-sessionstorage.js:205-208 | `length` is the number of keys currently stored, and it is zero exactly when the store is empty |
| MemoryStore.MemoryStorage.GetItem | angular-sessionstorage.js:215-217 | present exactly when the key is stored, and then it is the stored value |
| MemoryStore.MemoryStorage.SetItem | angular-sessionstorage.js:219-221 | the new store is the old one with that key overwritten; `length` grows by one exactly when the key is new |
| MemoryStore.MemoryStorage.RemoveItem | angular-sessionstorage.js:223-225 | the new store is the old one without the key; `length` drops by one exactly when the key was present |
| CapabilityProbe.StructuralCheckAsWritten | angular-sessionstorage.js:229-253 | the checks as written raise exactly for a null reference; they proceed exactly when the reference is an object with all four methods |
| CapabilityProbe.StructuralCheck | angular-sessionstorage.js:229-253 | the intended checks pass iff the reference is an object and all four of `getItem`, `setItem`, `removeItem`, `clear` are functions; nothing raises |
| CapabilityProbe.NullReferenceEscapes | angular-sessionstorage.js:235-241 | for a null reference the written checks raise, while the intended probe selects the fallback and leaves the host untouched |
| CapabilityProbe.FunctionalCheck | angular-sessionstorage.js:255-270 | native iff no read, write or delete raises, the host is not broken, and a stale host can be cleared. Always: at most one clear call (one that raised included) and at most two read-backs. If native: the last read-back is the sentinel and the earlier one is not; one clear was made iff the host was stale; the host is left usable; the sentinel key is gone; no other entry changed, or all were cleared |
| CapabilityProbe.ProbeSpec | angular-sessionstorage.js:229-272 | native iff the structural checks pass and the functional check can succeed; a failed structural check makes no host call |
| CapabilityProbe.Probe | angular-sessionstorage.js:229-272 | the imperative probe follows the code, except that a null reference takes the corrected `StructuralCheck` branch and falls back. It selects the native medium exactly when `ProbeSpec` says so, and leaves the host in `ProbeSpec`'s final state. The host's `clearCalls` grows by `ProbeSpec`'s clear count, and the values it reads back are `ProbeSpec`'s read-backs. If native, it returns the host itself, in a usable state; otherwise it returns a fresh, empty `MemoryStorage` |
| Facade.CalcOptions | angular-sessionstorage.js:194-196 | with no options, returns the defaults themselves; with options, returns defaults overlaid by options, where the options win and every other default is kept. The defaults are a value and are never changed |
| Facade.StripKeyName | angular-sessionstorage.js:120-126 | the medium key starts with the prefix; stripping the prefix gives the key back; distinct keys get distinct medium keys |
| Facade.FromRaw | angular-sessionstorage.js:103 | an absent value stays absent; the empty string comes back unchanged; any other raw string is deserialised |
| Facade.ObjectRoundTrip | angular-sessionstorage.js:100-104 | reading back a serialised value gives the value, for a codec that round-trips and never yields "" |
| Facade.SessionStorageService.constructor | angular-sessionstorage.js:65-66 | the service is built over the selected medium and defaults |
| Facade.SessionStorageService.Get | angular-sessionstorage.js:80-85 | the result is the medium's entry at prefix + key, or absent, and never an error |
| Facade.SessionStorageService.GetObject | angular-sessionstorage.js:100-104 | the result is `FromRaw` of the entry at prefix + key |
| Facade.SessionStorageService.GetAll | angular-sessionstorage.js:118-133 | a key is in the result iff the medium holds prefix + key, for the call's prefix; each value is read under the default prefix; the medium does not change |
| Facade.SessionStorageService.Put | angular-sessionstorage.js:147-152 | the medium afterwards is the old one with only prefix + key set to the value |
| Facade.SessionStorageService.PutObject | angular-sessionstorage.js:166-168 | the medium afterwards is the old one with only prefix + key set to the serialised value |
| Facade.SessionStorageService.Remove | angular-sessionstorage.js:181-186 | the medium afterwards lacks only prefix + key; removing an absent key leaves it unchanged |
| Facade.SessionStorageService.IsEnabled | angular-sessionstorage.js:188-190 | if no item named "isMemoryStorage" is stored, true exactly when the native medium was selected; if one is, true exactly when its value is the falsy empty string |
| Facade.Initialize | angular-sessionstorage.js:198-273 | the native medium is used iff the probe selects it, and then the service works on the host in the probe's final state; otherwise it works on a fresh, empty in-memory store. With no "isMemoryStorage" item, `isEnabled()` reports the probe's choice |
| Properties.PutThenGet | angular-sessionstorage.js:147-152 | `put(k, v, o)` then `get(k, o)` returns `v`, and every other medium key keeps its value |
| Properties.RemoveThenGet | angular-sessionstorage.js:181-186 | `remove(k, o)` then `get(k, o)` returns absent, and every other medium key keeps its value |
| Properties.PutObjectThenGetObject | angular-sessionstorage.js:166-168 | `putObject` then `getObject` with the same key and options returns the value |
| Properties.PrefixIsolation | angular-sessionstorage.js:80-85 | after `put("x", "1", {prefix: "app:"})`, `get("x")` is absent and `get("x", {prefix: "app:"})` is "1" |
| Properties.GetAllReadsDefaultPrefix | angular-sessionstorage.js:128 | `getAll({prefix: "app:"})` over {"app:x": "1"} is {"x": absent}, because the value is read from "x" |
| Properties.BlockedWrites | angular-sessionstorage.js:255-270 | if the host's `setItem` always raises, the service is not enabled, and put/get still round-trip in memory |
| Properties.StaleReadRecovered | angular-sessionstorage.js:258-265 | if the host's first read-back is stale, one clear recovers it, the native medium is selected, and its earlier entries are wiped |
| Properties.BrokenReadsFallBack | angular-sessionstorage.js:262-264 | if the host's reads never return the sentinel, the fallback is selected |
| Properties.MarkerItemHidesNative | angular-sessionstorage.js:188-190 | on the native medium, `isEnabled()` is true, and after `put("isMemoryStorage", "1")` it is false |

## Left out

- AngularJS module, provider and dependency-injection registration (angular-sessionstorage.js:24-32, 65). This is framework wiring. The provider's `defaults` object is a constructor argument of the service and does not change after that. Later changes to it are not modelled.
- JSON: `angular.toJson`/`angular.fromJson` are supplied as functions. Parse errors, serialisation errors (cyclic values) and `toJson(undefined)` are not modelled.
- `getAll` builds a `RegExp` from the prefix. The model uses a literal string-prefix test and strip, which agree only for prefixes without regular-expression metacharacters. Prefixes with metacharacters are out of scope.
- Property-name collisions other than `isMemoryStorage` are not modelled. On `MemoryStorage`, keys such as `length`, `getItem` or `__proto__` would collide with its own or prototype properties. In the model the store is a plain map, and `getItem`, `setItem` and `removeItem` see only its entries.
- `for…in` order and the `hasOwnProperty` filter are not modelled. `getAll` visits the medium's keys in an arbitrary order.
- Native `null` and memory `undefined` are both represented by the single absence marker `None`.
- Values are strings. `setItem`'s coercion of non-string values, and storing them raw in `MemoryStorage`, are not modelled.
- Options values are strings. A non-string `prefix` and its `join` conversion are not modelled.
- The host storage beyond the probe's needs is not modelled: quota errors that appear only after the probe, other tabs, and storage events. The facade is verified against a native medium that the probe accepted. Its `SetItem` and `RemoveItem` then cannot raise, and its reads are exact. An exception raised by the host later would propagate to the caller, and that is not modelled.
- An object whose property access itself raises (a throwing getter for `getItem`) is not modelled.

## Findings

| source | as written | input that shows it | evidently intended | confidence | as-written member | corrected member |
|---|---|---|---|---|---|---|
| angular-sessionstorage.js:235-241 | `typeof storage !== 'object'` lets `null` through, because `typeof null` is `'object'`. The next line reads `storage.getItem` outside any `try`, which raises a TypeError. The exception escapes the probe and the script's initialisation | a host where `window.sessionStorage` evaluates to `null` | a null reference selects `MemoryStorage`, like every other failed check | not executed | CapabilityProbe.StructuralCheckAsWritten, CapabilityProbe.NullReferenceEscapes | CapabilityProbe.StructuralCheck (used by `ProbeSpec` and `Probe`) |
