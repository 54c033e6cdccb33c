/**
 * The chamber crate's configuration and the two pieces of the compiler
 * setup it fixes: the session options (search paths, output type) and the
 * plugins (the chamber's lint registrar and no macros).
 */
module Chamber {
  import opened Wrappers
  import Hacks
  import ChamberPlugin

  type Path = string

  /** The chamber used when `--chamber` is not given. */
  const DEFAULT_CHAMBER: string := "rcr_baseline"

  /** Configuration for building Rust source against a chamber. */
  datatype Config = Config(
    chamberName: string,
    inputFile: Path,
    crateTypes: seq<Hacks.CrateType>,
    searchPaths: seq<Path>,
    outDir: Option<Path>,
    outFile: Option<Path>,
    sysroot: Option<Path>)

  datatype OutputType = OutputTypeAssembly | OutputTypeBitcode | OutputTypeLlvmAssembly | OutputTypeObject | OutputTypeExe

  /** The compiler session options the chamber sets; every other option keeps the compiler's default. */
  datatype SessOpts = SessOpts(
    crateTypes: seq<Hacks.CrateType>,
    addlLibSearchPaths: set<Path>,
    maybeSysroot: Option<Path>,
    outputTypes: seq<OutputType>)

  /** The directories added to every search path for convenience. */
  const CONVENIENCE_PATHS: seq<Path> := [".", "./target", "./target/deps"]

  /** The search-path set the session is given: the configured paths and the conveniences, without duplicates. */
  ghost function SearchPathSet(configured: seq<Path>): set<Path>
  {
    (set p | p in configured) + (set p | p in CONVENIENCE_PATHS)
  }

  /** The distinct elements of a sequence are no more than its length. */
  lemma {:induction false} DistinctElementsBound(s: seq<Path>)
    ensures |set p | p in s| <= |s|
  {
    if s != [] {
      DistinctElementsBound(s[1..]);
      assert (set p | p in s) == {s[0]} + (set p | p in s[1..]);
    }
  }

  /** `build_session_options`: the configured paths plus the conveniences, collected into a set. */
  method BuildSessionOptions(config: Config) returns (opts: SessOpts)
    ensures opts.addlLibSearchPaths == SearchPathSet(config.searchPaths)
    ensures |opts.addlLibSearchPaths| <= |config.searchPaths| + 3
    ensures opts.outputTypes == [OutputTypeExe]
    ensures opts.crateTypes == config.crateTypes && opts.maybeSysroot == config.sysroot
  {
    var searchPaths := config.searchPaths;
    searchPaths := searchPaths + CONVENIENCE_PATHS;
    var pathSet: set<Path> := {};
    for i := 0 to |searchPaths|
      invariant pathSet == set k | 0 <= k < i :: searchPaths[k]
    {
      pathSet := pathSet + {searchPaths[i]};
    }
    assert pathSet == set p | p in searchPaths;
    DistinctElementsBound(searchPaths);
    opts := SessOpts(config.crateTypes, pathSet, config.sysroot, [OutputTypeExe]);
  }

  /** Naming a path twice, or naming a convenience path, does not change the search-path set. */
  lemma SearchPathDuplicates(configured: seq<Path>, p: Path)
    requires p in configured || p in CONVENIENCE_PATHS
    ensures SearchPathSet(configured + [p]) == SearchPathSet(configured)
  {
    assert (set q | q in configured + [p]) == (set q | q in configured) + {p};
  }

  /** The order of the configured paths does not matter, only which paths they are. */
  lemma SearchPathOrder(a: seq<Path>, b: seq<Path>)
    requires multiset(a) == multiset(b)
    ensures SearchPathSet(a) == SearchPathSet(b)
  {
    forall p ensures p in a <==> p in b {
      assert p in a <==> p in multiset(a);
      assert p in b <==> p in multiset(b);
    }
  }

  /** A plugin registrar function; the chamber has exactly one. */
  datatype Registrar = ChamberPluginRegistrar

  /** The passes a registrar installs when the compiler runs it on a registry. */
  function RegistrarPasses(r: Registrar): seq<ChamberPlugin.PassKind>
  {
    match r
    case ChamberPluginRegistrar => ChamberPlugin.ChamberPasses()
  }

  datatype Plugins = Plugins(macros: seq<string>, registrars: seq<Registrar>)

  /** `get_chamber_plugins`: no macros and the chamber's lint registrar only. */
  function GetChamberPlugins(): (plugins: Plugins)
    ensures plugins.macros == []
    ensures |plugins.registrars| == 1
  {
    Plugins([], [ChamberPluginRegistrar])
  }

  /**
   * The plugins the chamber loads install exactly the unsafe-block pass and
   * the foreign-item pass, both of whose lints are at level Forbid.
   */
  lemma ChamberPluginsInstallPolicy()
    ensures forall r :: r in GetChamberPlugins().registrars ==>
      RegistrarPasses(r) == [ChamberPlugin.UnsafeBlockPass, ChamberPlugin.ForeignItemPass]
    ensures forall r, p :: r in GetChamberPlugins().registrars && p in RegistrarPasses(r) ==>
      ChamberPlugin.GetLints(p)[0].defaultLevel == ChamberPlugin.Forbid
  {
  }
}
