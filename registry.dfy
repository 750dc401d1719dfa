/**
 * The module registry: a package-level map from a module's configuration
 * name to its constructor. Each module file registers itself at start-up,
 * and the status bar looks modules up by name.
 */
module Registry {
  import opened Wrappers
  import opened Settings

  /** The constructors the registry can hold, one per module kind. */
  datatype Constructor = NewCPU | NewMemory | NewLoadAverage | NewNetwork | NewBattery | NewShellCommand | NewDateTime | NewUptime

  /** A module as a constructor builds it: which kind, from which configuration. */
  datatype Module = Module(ctor: Constructor, config: ModuleConfig)

  /** The error GetModule reports for a name nobody registered. */
  function NotRegistered(name: string): string {
    "no module named " + name + " is registered"
  }

  /**
   * GetModule: the module registered under name built from mc, or the error
   * naming it. The registry map is passed in as a value.
   */
  function GetModule(entries: map<string, Constructor>, name: string, mc: ModuleConfig): (r: Result<Module, string>)
    ensures r.Success? <==> name in entries
    ensures r.Success? ==> r.value == Module(entries[name], mc)
    ensures r.Failure? ==> r.error == NotRegistered(name)
  {
    if name in entries then Success(Module(entries[name], mc)) else Failure(NotRegistered(name))
  }

  /** The package-level registry map. */
  class Modules {
    var entries: map<string, Constructor>

    /** The map as the package's init functions leave it, one entry per module file. */
    constructor ()
      ensures entries == BUILTINS
    {
      entries := map[];
      new;
      AddModMap("CPU", NewCPU);
      AddModMap("Memory", NewMemory);
      AddModMap("LoadAverage", NewLoadAverage);
      AddModMap("Network", NewNetwork);
      AddModMap("Battery", NewBattery);
      AddModMap("ShellCommand", NewShellCommand);
      AddModMap("DateTime", NewDateTime);
      AddModMap("Uptime", NewUptime);
    }

    /** Registers f under name, replacing an earlier entry and leaving every other name alone. */
    method AddModMap(name: string, f: Constructor)
      modifies this
      ensures entries == old(entries)[name := f]
      ensures forall mc :: GetModule(entries, name, mc) == Success(Module(f, mc))
      ensures forall n, mc :: n != name ==> GetModule(entries, n, mc) == GetModule(old(entries), n, mc)
    {
      entries := entries[name := f];
    }
  }

  const BUILTINS: map<string, Constructor> := map[
    "CPU" := NewCPU, "Memory" := NewMemory, "LoadAverage" := NewLoadAverage,
    "Network" := NewNetwork, "Battery" := NewBattery, "ShellCommand" := NewShellCommand,
    "DateTime" := NewDateTime, "Uptime" := NewUptime]

  /** Registering under a name and then looking up any name: the new constructor for that name, the old answer for every other. */
  lemma AddThenGet(entries: map<string, Constructor>, name: string, f: Constructor, n: string, mc: ModuleConfig)
    ensures GetModule(entries[name := f], n, mc) == if n == name then Success(Module(f, mc)) else GetModule(entries, n, mc)
  {
  }

  /** The name each module file registers its constructor under. */
  function BuiltinName(k: Constructor): string {
    match k
    case NewCPU => "CPU"
    case NewMemory => "Memory"
    case NewLoadAverage => "LoadAverage"
    case NewNetwork => "Network"
    case NewBattery => "Battery"
    case NewShellCommand => "ShellCommand"
    case NewDateTime => "DateTime"
    case NewUptime => "Uptime"
  }

  /**
   * Look-ups in the built-in registry, for every name: a name resolves exactly
   * when some module kind registers under it, and then to that kind's own
   * constructor; any other name, other spellings included, gives the error.
   */
  lemma {:induction false} BuiltinLookup(n: string, mc: ModuleConfig)
    ensures GetModule(BUILTINS, n, mc).Success? <==> exists k :: BuiltinName(k) == n
    ensures forall k :: BuiltinName(k) == n ==> GetModule(BUILTINS, n, mc) == Success(Module(k, mc))
    ensures (forall k :: BuiltinName(k) != n) ==> GetModule(BUILTINS, n, mc) == Failure(NotRegistered(n))
  {
    if n in BUILTINS {
      assert BuiltinName(BUILTINS[n]) == n;
    }
  }
}
