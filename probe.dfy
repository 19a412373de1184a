/**
 * The capability probe: evaluated once, it decides whether the native session
 * storage backs the facade or a fresh in-memory store does. Cheap structural
 * checks come first; then a side-effecting functional check writes a sentinel,
 * reads it back, and allows exactly one clear-and-retry before giving up.
 */
module CapabilityProbe {
  import opened Wrappers
  import opened NativeMedium
  import opened MemoryStore

  /** The sentinel key, also written as its own value. */
  const TEST: string := "SOME_TEST_KEY"

  /** What evaluating `window.sessionStorage` yields. */
  datatype HostReference =
    | AccessDenied                          // the property access itself raises
    | NullReference                         // the value is null
    | Primitive                             // a value whose typeof is not 'object' (undefined, ...)
    | StorageObject(functions: set<Call>)   // an object; `functions` are its members that are functions

  /** The medium the probe selects. */
  datatype Backend = Native(host: NativeStorage) | Fallback(mem: MemoryStorage) {
    /** The single object the medium's state lives in. */
    function Obj(): object {
      match this
      case Native(h) => h
      case Fallback(m) => m
    }
  }

  /** The three ways the structural checks can end, as the code is written. */
  datatype StructuralOutcome = Proceed | UseMemory | Raises

  /**
   * The structural checks exactly as written: the access in its own try block,
   * then `typeof storage !== 'object'`, then one `typeof` test per method, the
   * latter outside any try block. Since `typeof null` is 'object', a null
   * reference passes the first test and the property access of the second
   * raises a TypeError that no handler catches.
   */
  function StructuralCheckAsWritten(reference: HostReference): (o: StructuralOutcome)
    ensures o == Raises <==> reference.NullReference?
    ensures o == Proceed <==> StructuralCheck(reference)
  {
    match reference
    case AccessDenied => UseMemory
    case NullReference => Raises
    case Primitive => UseMemory
    case StorageObject(functions) =>
      if GetItemCall !in functions then UseMemory
      else if SetItemCall !in functions then UseMemory
      else if RemoveItemCall !in functions then UseMemory
      else if ClearCall !in functions then UseMemory
      else Proceed
  }

  /**
   * The structural checks as intended: every reference that is not an object
   * exposing the four methods selects the fallback; nothing raises.
   */
  function StructuralCheck(reference: HostReference): (ok: bool)
    ensures ok <==> reference.StorageObject? &&
                    {GetItemCall, SetItemCall, RemoveItemCall, ClearCall} <= reference.functions
  {
    match reference
    case StorageObject(functions) =>
      GetItemCall in functions && SetItemCall in functions &&
      RemoveItemCall in functions && ClearCall in functions
    case _ => false
  }

  /** A null reference: the written checks raise, the intended ones fall back. */
  lemma NullReferenceEscapes(h: HostState)
    ensures StructuralCheckAsWritten(NullReference) == Raises
    ensures !ProbeSpec(NullReference, h).native && ProbeSpec(NullReference, h).final == h
  {
  }

  /**
   * What a run of the probe did: whether the native medium was selected, the
   * host's state afterwards, the sentinel values read back, and the number of
   * `clear` calls made.
   */
  datatype ProbeRun = ProbeRun(native: bool, final: HostState, readBacks: seq<Option<string>>, clears: nat)

  /** The host behaviours under which the functional check succeeds. */
  predicate Functional(h: HostState) {
    && GetItemCall !in h.failing && SetItemCall !in h.failing && RemoveItemCall !in h.failing
    && !h.broken
    && (h.stale ==> ClearCall !in h.failing)
  }

  /** The last step: delete the sentinel and select the native medium. */
  function RemoveSentinel(h: HostState, readBacks: seq<Option<string>>, clears: nat): ProbeRun {
    match DeleteItem(h, TEST)
    case Thrown => ProbeRun(false, h, readBacks, clears)
    case Ok(h') => ProbeRun(true, h', readBacks, clears)
  }

  /** The functional check inside the try block; any exception selects the fallback. */
  function FunctionalCheck(h: HostState): (run: ProbeRun)
    ensures run.native <==> Functional(h)
    ensures run.clears <= 1 && |run.readBacks| <= 2
    ensures run.native ==> |run.readBacks| == run.clears + 1 && run.readBacks[run.clears] == Some(TEST)
    ensures run.native ==> forall i | 0 <= i < run.clears :: run.readBacks[i] != Some(TEST)
    ensures run.native ==> (run.clears == 1 <==> h.stale)
    ensures run.native ==> run.final.Usable() && TEST !in run.final.entries
    ensures run.native ==> run.final.entries == (if run.clears == 0 then h.entries else map[]) - {TEST}
    ensures run.final.broken == h.broken && run.final.failing == h.failing
  {
    match WriteItem(h, TEST, TEST)
    case Thrown => ProbeRun(false, h, [], 0)
    case Ok(h1) =>
      match ReadItem(h1, TEST)
      case Thrown => ProbeRun(false, h1, [], 0)
      case Ok(first) =>
        if first == Some(TEST) then RemoveSentinel(h1, [first], 0)
        else
          match ClearItems(h1)
          case Thrown => ProbeRun(false, h1, [first], 1)
          case Ok(h2) =>
            match WriteItem(h2, TEST, TEST)
            case Thrown => ProbeRun(false, h2, [first], 1)
            case Ok(h3) =>
              match ReadItem(h3, TEST)
              case Thrown => ProbeRun(false, h3, [first], 1)
              case Ok(second) =>
                if second == Some(TEST) then RemoveSentinel(h3, [first, second], 1)
                else ProbeRun(false, h3, [first, second], 1)
  }

  /** The whole probe: structural checks, then the functional check. */
  function ProbeSpec(reference: HostReference, h: HostState): (run: ProbeRun)
    ensures run.native <==> StructuralCheck(reference) && Functional(h)
    ensures !StructuralCheck(reference) ==> run == ProbeRun(false, h, [], 0)
    ensures StructuralCheck(reference) ==> run == FunctionalCheck(h)
  {
    if StructuralCheck(reference) then FunctionalCheck(h) else ProbeRun(false, h, [], 0)
  }

  /** A fresh, empty fallback store. */
  method NewFallback() returns (selected: Backend)
    ensures selected.Fallback? && fresh(selected.mem) && selected.mem.items == map[]
  {
    var mem := new MemoryStorage();
    selected := Fallback(mem);
  }

  /**
   * The probe, one host call after another with early returns, as in the
   * code, except on a null reference: there it takes the corrected branch of
   * `StructuralCheck` and falls back, where the code as written raises. The
   * native medium comes back only when it is usable as a plain map. The
   * sentinel values read back are returned in `readBacks`.
   */
  method Probe(reference: HostReference, host: NativeStorage)
    returns (selected: Backend, ghost readBacks: seq<Option<string>>)
    modifies host
    ensures selected.Native? == ProbeSpec(reference, old(host.State())).native
    ensures host.State() == ProbeSpec(reference, old(host.State())).final
    ensures host.clearCalls == old(host.clearCalls) + ProbeSpec(reference, old(host.State())).clears
    ensures readBacks == ProbeSpec(reference, old(host.State())).readBacks
    ensures selected.Native? ==> selected.host == host && host.State().Usable()
    ensures selected.Fallback? ==> fresh(selected.mem) && selected.mem.items == map[]
  {
    readBacks := [];
    match reference {
      case AccessDenied =>
        selected := NewFallback();
        return;
      case NullReference =>
        selected := NewFallback();
        return;
      case Primitive =>
        selected := NewFallback();
        return;
      case StorageObject(functions) =>
        if GetItemCall !in functions || SetItemCall !in functions ||
           RemoveItemCall !in functions || ClearCall !in functions {
          selected := NewFallback();
          return;
        }
    }
    var outcome := host.SetItem(TEST, TEST);
    if outcome.Threw? {
      selected := NewFallback();
      return;
    }
    var read := host.GetItem(TEST);
    if read.Thrown? {
      selected := NewFallback();
      return;
    }
    readBacks := readBacks + [read.value];
    if read.value != Some(TEST) {
      outcome := host.Clear();
      if outcome.Threw? {
        selected := NewFallback();
        return;
      }
      outcome := host.SetItem(TEST, TEST);
      if outcome.Threw? {
        selected := NewFallback();
        return;
      }
      read := host.GetItem(TEST);
      if read.Thrown? {
        selected := NewFallback();
        return;
      }
      readBacks := readBacks + [read.value];
      if read.value != Some(TEST) {
        selected := NewFallback();
        return;
      }
    }
    outcome := host.RemoveItem(TEST);
    if outcome.Threw? {
      selected := NewFallback();
      return;
    }
    selected := Native(host);
  }
}
