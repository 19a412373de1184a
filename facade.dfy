/**
 * The `$sessionStorage` service: prefixed reads, writes and deletes over the
 * medium the probe selected, JSON (de)serialising variants, enumeration of a
 * prefix's entries, and the durability report. The JSON codec is a pair of
 * functions supplied by the caller (`toJson`, `fromJson`).
 */
module Facade {
  import opened Wrappers
  import opened NativeMedium
  import opened MemoryStore
  import opened CapabilityProbe

  /** An options record: property name to value; `prefix` is the one that is read. */
  type Options = map<string, string>

  /**
   * `calcOptions`: the defaults themselves when no options are given, otherwise
   * a new record holding the defaults overlaid by the options, the options
   * winning on every name they carry.
   */
  function CalcOptions(defaults: Options, options: Option<Options>): (merged: Options)
    ensures options.None? ==> merged == defaults
    ensures options.Some? ==> merged.Keys == defaults.Keys + options.value.Keys
    ensures options.Some? ==> forall name :: name in options.value ==> merged[name] == options.value[name]
    ensures options.Some? ==> forall name :: name in defaults && name !in options.value ==>
                                merged[name] == defaults[name]
  {
    match options
    case None => defaults
    case Some(o) => defaults + o
  }

  /** The active prefix; an unset prefix joins as the empty string. */
  function Prefix(opts: Options): string {
    if "prefix" in opts then opts["prefix"] else ""
  }

  /** `[opts.prefix, key].join('')`: the medium key. */
  function KeyName(opts: Options, key: string): (name: string)
  {
    Prefix(opts) + key
  }

  /** The strip that `getAll` applies undoes `KeyName`; distinct keys get distinct medium keys. */
  lemma StripKeyName(opts: Options, key: string, other: string)
    ensures Prefix(opts) <= KeyName(opts, key) && KeyName(opts, key)[|Prefix(opts)|..] == key
    ensures KeyName(opts, key) == KeyName(opts, other) ==> key == other
  {
  }

  /** The property `isEnabled` reads on the medium object. */
  const MarkerName: string := "isMemoryStorage"

  /** What `getObject` returns: the absence marker, the raw empty string, or a parsed value. */
  datatype ObjectValue<V> = Absent | EmptyString | Parsed(value: V)

  /**
   * `keyValue ? fromJson(keyValue) : keyValue`: a falsy raw value (absent or
   * the empty string) comes back unchanged, any other is deserialised.
   */
  function FromRaw<V>(raw: Option<string>, fromJson: string -> V): (r: ObjectValue<V>)
    ensures r.Absent? <==> raw.None?
    ensures r.EmptyString? <==> raw == Some("")
    ensures raw.Some? && raw.value != "" ==> r == Parsed(fromJson(raw.value))
  {
    match raw
    case None => Absent
    case Some(s) => if s == "" then EmptyString else Parsed(fromJson(s))
  }

  /** A serialisation that `fromJson` undoes and that is never the empty string. */
  lemma ObjectRoundTrip<V>(value: V, toJson: V -> string, fromJson: string -> V)
    requires fromJson(toJson(value)) == value && toJson(value) != ""
    ensures FromRaw(Some(toJson(value)), fromJson) == Parsed(value)
  {
  }

  class SessionStorageService {
    /** The medium chosen by the probe, shared by every call. */
    const backend: Backend
    /** The provider's default options. */
    const defaults: Options

    /** A native medium in use is one the probe accepted. */
    ghost predicate Valid()
      reads backend.Obj()
    {
      backend.Native? ==> backend.host.State().Usable()
    }

    /** The medium's current key/value contents. */
    function Entries(): map<string, string>
      reads backend.Obj()
    {
      match backend
      case Native(host) => host.entries
      case Fallback(mem) => mem.items
    }

    /** The service object `$get` returns, over the selected medium. */
    constructor (backend: Backend, defaults: Options)
      requires backend.Native? ==> backend.host.State().Usable()
      ensures this.backend == backend && this.defaults == defaults
      ensures Valid()
    {
      this.backend := backend;
      this.defaults := defaults;
    }

    /** `get`: the raw value under the prefixed key; absent is not an error. */
    method Get(key: string, options: Option<Options>) returns (value: Option<string>)
      requires Valid()
      ensures value == Lookup(Entries(), KeyName(CalcOptions(defaults, options), key))
    {
      var keyName := KeyName(CalcOptions(defaults, options), key);
      match backend
      case Native(host) =>
        var r := host.GetItem(keyName);
        value := r.GetOr(None);
      case Fallback(mem) =>
        value := mem.GetItem(keyName);
    }

    /** `getObject`: `get`, then deserialise unless the raw value is falsy. */
    method GetObject<V>(key: string, options: Option<Options>, fromJson: string -> V)
      returns (value: ObjectValue<V>)
      requires Valid()
      ensures value == FromRaw(Lookup(Entries(), KeyName(CalcOptions(defaults, options), key)), fromJson)
    {
      var raw := Get(key, options);
      value := FromRaw(raw, fromJson);
    }

    /**
     * `getAll`: one entry per medium key that starts with the call's prefix,
     * under that key with the prefix stripped. Each value is looked up through
     * `getObject` WITHOUT the call's options, so under the default prefix.
     */
    method GetAll<V>(options: Option<Options>, fromJson: string -> V)
      returns (all: map<string, ObjectValue<V>>)
      requires Valid()
      ensures forall key :: key in all <==> KeyName(CalcOptions(defaults, options), key) in Entries()
      ensures forall key :: key in all ==>
                all[key] == FromRaw(Lookup(Entries(), KeyName(defaults, key)), fromJson)
    {
      var prefix := Prefix(CalcOptions(defaults, options));
      var pending := Entries().Keys;
      ghost var seen: set<string> := {};
      all := map[];
      while pending != {}
        invariant pending !! seen && pending + seen == Entries().Keys
        invariant forall key :: key in all <==> prefix + key in seen
        invariant forall key :: key in all ==>
                    all[key] == FromRaw(Lookup(Entries(), KeyName(defaults, key)), fromJson)
        decreases pending
      {
        var keyName :| keyName in pending;
        if prefix <= keyName {
          var key := keyName[|prefix|..];
          assert prefix + key == keyName;
          var value := GetObject(key, None, fromJson);
          all := all[key := value];
        }
        pending := pending - {keyName};
        seen := seen + {keyName};
      }
    }

    /** `put`: stores the raw value under the prefixed key; nothing else changes. */
    method Put(key: string, value: string, options: Option<Options>)
      requires Valid()
      modifies backend.Obj()
      ensures Valid()
      ensures Entries() == old(Entries())[KeyName(CalcOptions(defaults, options), key) := value]
    {
      var keyName := KeyName(CalcOptions(defaults, options), key);
      match backend
      case Native(host) =>
        var _ := host.SetItem(keyName, value);
      case Fallback(mem) =>
        mem.SetItem(keyName, value);
    }

    /** `putObject`: `put` of the serialised value. */
    method PutObject<V>(key: string, value: V, options: Option<Options>, toJson: V -> string)
      requires Valid()
      modifies backend.Obj()
      ensures Valid()
      ensures Entries() == old(Entries())[KeyName(CalcOptions(defaults, options), key) := toJson(value)]
    {
      Put(key, toJson(value), options);
    }

    /** `remove`: deletes the prefixed key; an absent key leaves the medium as it was. */
    method Remove(key: string, options: Option<Options>)
      requires Valid()
      modifies backend.Obj()
      ensures Valid()
      ensures Entries() == old(Entries()) - {KeyName(CalcOptions(defaults, options), key)}
      ensures KeyName(CalcOptions(defaults, options), key) !in old(Entries()) ==>
                Entries() == old(Entries())
    {
      var keyName := KeyName(CalcOptions(defaults, options), key);
      match backend
      case Native(host) =>
        var _ := host.RemoveItem(keyName);
      case Fallback(mem) =>
        mem.RemoveItem(keyName);
    }

    /**
     * The truth value of `storage.isMemoryStorage`. A stored item of that name
     * is read as the property: an own property of the fallback object shadows
     * the prototype's marker, and the host's storage object exposes its items
     * as named properties. With no such item the fallback's marker is `true`
     * and the host has no such property (undefined, falsy).
     */
    function MarkerSet(): bool
      reads backend.Obj()
    {
      if MarkerName in Entries() then Entries()[MarkerName] != ""
      else match backend
        case Native(_) => false
        case Fallback(mem) => mem.isMemoryStorage
    }

    /**
     * `isEnabled`: `!storage.isMemoryStorage`. Unless an item named
     * "isMemoryStorage" is stored, true exactly for the native medium; with one,
     * true exactly when its value is the (falsy) empty string.
     */
    function IsEnabled(): (enabled: bool)
      reads backend.Obj()
      ensures MarkerName !in Entries() ==> (enabled <==> backend.Native?)
      ensures MarkerName in Entries() ==> (enabled <==> Entries()[MarkerName] == "")
    {
      !MarkerSet()
    }
  }

  /** Module start-up: run the probe once and build the service over its choice. */
  method Initialize(reference: HostReference, host: NativeStorage, defaults: Options)
    returns (service: SessionStorageService)
    modifies host
    ensures fresh(service) && service.defaults == defaults && service.Valid()
    ensures service.backend.Native? <==> ProbeSpec(reference, old(host.State())).native
    ensures service.backend.Native? ==> service.backend.host == host
    ensures service.backend.Native? ==> service.Entries() == ProbeSpec(reference, old(host.State())).final.entries
    ensures service.backend.Fallback? ==> fresh(service.backend.mem) && service.Entries() == map[]
    ensures MarkerName !in service.Entries() ==>
              (service.IsEnabled() <==> ProbeSpec(reference, old(host.State())).native)
  {
    var selected;
    ghost var readBacks;
    selected, readBacks := Probe(reference, host);
    service := new SessionStorageService(selected, defaults);
  }
}
