/**
 * The host's native session storage (`window.sessionStorage`), as the probe and
 * the facade use it: `getItem`, `setItem`, `removeItem`, `clear` and key
 * enumeration over a string-to-string store. The host object is not part of the
 * library; it is modelled as a store with a scripted behaviour so that every
 * path of the capability probe can be reached.
 */
module NativeMedium {
  import opened Wrappers

  /** The four host methods the probe looks for and calls. */
  datatype Call = GetItemCall | SetItemCall | RemoveItemCall | ClearCall

  /**
   * The abstract state of the host storage.
   *  - entries: what is stored.
   *  - stale:   reads come back absent until the store is cleared (a corrupt
   *             prior state that one `clear` repairs).
   *  - broken:  reads always come back absent (writes never stick).
   *  - failing: the calls that raise an exception whenever they are made
   *             (for instance `setItem` under a zero quota).
   */
  datatype HostState = HostState(
    entries: map<string, string>,
    stale: bool,
    broken: bool,
    failing: set<Call>)
  {
    /** A host on which reads, writes and deletes behave as a plain map. */
    predicate Usable() {
      && !stale && !broken
      && GetItemCall !in failing && SetItemCall !in failing && RemoveItemCall !in failing
    }
  }

  /** `getItem(key)` on the host. */
  function ReadItem(h: HostState, key: string): Result<Option<string>> {
    if GetItemCall in h.failing then Thrown
    else if h.stale || h.broken then Ok(None)
    else Ok(Lookup(h.entries, key))
  }

  /** `setItem(key, value)` on the host: the new state, or Thrown. */
  function WriteItem(h: HostState, key: string, value: string): Result<HostState> {
    if SetItemCall in h.failing then Thrown
    else Ok(h.(entries := h.entries[key := value]))
  }

  /** `removeItem(key)` on the host. */
  function DeleteItem(h: HostState, key: string): Result<HostState> {
    if RemoveItemCall in h.failing then Thrown
    else Ok(h.(entries := h.entries - {key}))
  }

  /** `clear()` on the host: empties the store and repairs a stale state. */
  function ClearItems(h: HostState): Result<HostState> {
    if ClearCall in h.failing then Thrown
    else Ok(h.(entries := map[], stale := false))
  }

  /** The host storage object; its methods update it in place. */
  class NativeStorage {
    var entries: map<string, string>
    var stale: bool
    const broken: bool
    const failing: set<Call>
    /** How many times `clear` has been called on this object. */
    ghost var clearCalls: nat

    function State(): HostState
      reads this
    {
      HostState(entries, stale, broken, failing)
    }

    constructor (entries: map<string, string>, stale: bool, broken: bool, failing: set<Call>)
      ensures State() == HostState(entries, stale, broken, failing) && clearCalls == 0
    {
      this.entries := entries;
      this.stale := stale;
      this.broken := broken;
      this.failing := failing;
      clearCalls := 0;
    }

    method GetItem(key: string) returns (r: Result<Option<string>>)
      ensures r == ReadItem(State(), key)
    {
      r := ReadItem(State(), key);
    }

    method SetItem(key: string, value: string) returns (r: Outcome)
      modifies this
      ensures r.Done? <==> WriteItem(old(State()), key, value).Ok?
      ensures State() == WriteItem(old(State()), key, value).GetOr(old(State()))
      ensures clearCalls == old(clearCalls)
    {
      match WriteItem(State(), key, value)
      case Thrown => r := Threw;
      case Ok(h) => entries := h.entries; r := Done;
    }

    method RemoveItem(key: string) returns (r: Outcome)
      modifies this
      ensures r.Done? <==> DeleteItem(old(State()), key).Ok?
      ensures State() == DeleteItem(old(State()), key).GetOr(old(State()))
      ensures clearCalls == old(clearCalls)
    {
      match DeleteItem(State(), key)
      case Thrown => r := Threw;
      case Ok(h) => entries := h.entries; r := Done;
    }

    method Clear() returns (r: Outcome)
      modifies this
      ensures r.Done? <==> ClearItems(old(State())).Ok?
      ensures State() == ClearItems(old(State())).GetOr(old(State()))
      ensures clearCalls == old(clearCalls) + 1
    {
      clearCalls := clearCalls + 1;
      match ClearItems(State())
      case Thrown => r := Threw;
      case Ok(h) => entries, stale := h.entries, h.stale; r := Done;
    }
  }
}
