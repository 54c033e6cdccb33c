/**
 * The command-line driver: from the arguments and what the option parser
 * made of them, decide whether to compile, show the help, or report a parse
 * error, and turn that decision into the process's exit status.
 */
module Driver {
  import opened Wrappers
  import Hacks
  import opened Chamber

  /**
   * What the option parser (getopts, over the options the driver declares)
   * found: `help` is `-h`/`--help`, `libPaths` the `-L` values in order,
   * `crateType` the `--crate-type` values in order, `outFile` is `-o`, and
   * `free` the arguments that are not options.
   */
  datatype Matches = Matches(
    help: bool,
    chamber: Option<string>,
    libPaths: seq<string>,
    crateType: seq<string>,
    outFile: Option<string>,
    outDir: Option<string>,
    sysroot: Option<string>,
    free: seq<string>)

  /** What the driver decides to do. */
  datatype ExeMode = Run(config: Config) | Help | ParseError(message: string)

  /** The chamber named by `--chamber`, or the default one. */
  function ChamberName(m: Matches): (name: string)
    ensures m.chamber.None? ==> name == DEFAULT_CHAMBER
    ensures m.chamber.Some? ==> name == m.chamber.value
  {
    match m.chamber
    case Some(c) => c
    case None => DEFAULT_CHAMBER
  }

  /**
   * `parse_config`: drop the program name; with nothing left show the help;
   * otherwise parse the options (`getopts` stands for the option parser
   * applied to the remaining arguments), then, in this order, a parser
   * failure is a parse error, a help flag shows the help, a bad crate type is
   * a parse error, and anything but exactly one free argument shows the help.
   */
  function ParseConfig(args: seq<string>, getopts: seq<string> -> Result<Matches, string>): (mode: ExeMode)
    requires |args| >= 1
    ensures |args| == 1 ==> mode == Help
    ensures |args| > 1 && getopts(args[1..]).Err? ==> mode == ParseError(getopts(args[1..]).error)
    ensures |args| > 1 && getopts(args[1..]).Ok? && getopts(args[1..]).value.help ==> mode == Help
    ensures (|args| > 1 && getopts(args[1..]).Ok? && !getopts(args[1..]).value.help &&
             Hacks.CrateTypesFromList(getopts(args[1..]).value.crateType).Err?) ==>
      mode == ParseError(Hacks.CrateTypesFromList(getopts(args[1..]).value.crateType).error)
    ensures mode.Run? <==>
      |args| > 1 && getopts(args[1..]).Ok? && !getopts(args[1..]).value.help &&
      Hacks.CrateTypesFromList(getopts(args[1..]).value.crateType).Ok? &&
      |getopts(args[1..]).value.free| == 1
    ensures (|args| > 1 && getopts(args[1..]).Ok? && !getopts(args[1..]).value.help &&
             Hacks.CrateTypesFromList(getopts(args[1..]).value.crateType).Ok? &&
             |getopts(args[1..]).value.free| != 1) ==>
      mode == Help
    ensures mode.Run? ==>
      var m := getopts(args[1..]).value;
      && mode.config.inputFile == m.free[0]
      && mode.config.chamberName == ChamberName(m)
      && Hacks.CrateTypesFromList(m.crateType) == Ok(mode.config.crateTypes)
      && mode.config.searchPaths == m.libPaths
      && mode.config.outDir == m.outDir
      && mode.config.outFile == m.outFile
      && mode.config.sysroot == m.sysroot
  {
    var rest := args[1..];
    if rest == [] then Help
    else
      match getopts(rest)
      case Err(f) => ParseError(f)
      case Ok(m) =>
        if m.help then Help
        else
          match Hacks.CrateTypesFromList(m.crateType)
          case Err(s) => ParseError(s)
          case Ok(crateTypes) =>
            if |m.free| != 1 then Help
            else Run(Config(ChamberName(m), m.free[0], crateTypes, m.libPaths, m.outDir, m.outFile, m.sysroot))
  }

  /** A parse error always carries either the option parser's text or an unknown crate type. */
  lemma ParseErrorCause(args: seq<string>, getopts: seq<string> -> Result<Matches, string>)
    requires |args| >= 1 && ParseConfig(args, getopts).ParseError?
    ensures getopts(args[1..]).Err? ==> ParseConfig(args, getopts).message == getopts(args[1..]).error
    ensures getopts(args[1..]).Ok? ==>
      exists k :: Hacks.FirstUnknown(Hacks.AllParts(getopts(args[1..]).value.crateType), k) &&
        ParseConfig(args, getopts).message ==
        Hacks.UnknownCrateTypeMessage(Hacks.AllParts(getopts(args[1..]).value.crateType)[k])
  {
    if getopts(args[1..]).Ok? {
      var parts := Hacks.AllParts(getopts(args[1..]).value.crateType);
      var parsed := Hacks.ParseParts(parts);
      assert parsed.Err? && ParseConfig(args, getopts).message == parsed.error;
      var k :| Hacks.FirstUnknown(parts, k) && parsed.error == Hacks.UnknownCrateTypeMessage(parts[k]);
    }
  }

  /**
   * What `main` does: the exit status, whether it printed the usage text,
   * and the error line printed for a parse error.
   */
  datatype MainOutcome = MainOutcome(exitCode: int, usagePrinted: bool, errorLine: Option<string>)

  /**
   * `main`'s match on the mode: a run exits 0 exactly when the chamber
   * (`enchamber`) succeeds, the help prints the usage text and exits 0, and a
   * parse error is printed and exits 1.
   */
  function RunMode(mode: ExeMode, enchamber: Config -> Result<(), ()>): (out: MainOutcome)
    ensures out.exitCode == 0 || out.exitCode == 1
    ensures out.exitCode == 0 <==> mode.Help? || (mode.Run? && enchamber(mode.config).Ok?)
    ensures out.usagePrinted <==> mode.Help?
    ensures out.errorLine.Some? <==> mode.ParseError?
    ensures mode.ParseError? ==> out.errorLine == Some("error: " + mode.message)
  {
    match mode
    case Run(config) =>
      (match enchamber(config)
       case Ok(_) => MainOutcome(0, false, None)
       case Err(_) => MainOutcome(1, false, None))
    case Help => MainOutcome(0, true, None)
    case ParseError(s) => MainOutcome(1, false, Some("error: " + s))
  }

  /**
   * `main`: parse the configuration, then act on it. The program name alone,
   * or a help flag, prints the usage text and exits 0 without compiling, even
   * when a crate type is bad; a bad crate type without a help flag is printed
   * and exits 1.
   */
  function Main(args: seq<string>, getopts: seq<string> -> Result<Matches, string>, enchamber: Config -> Result<(), ()>): (out: MainOutcome)
    requires |args| >= 1
    ensures |args| == 1 ==> out == MainOutcome(0, true, None)
    ensures |args| > 1 && getopts(args[1..]).Ok? && getopts(args[1..]).value.help ==>
      out == MainOutcome(0, true, None)
    ensures (|args| > 1 && getopts(args[1..]).Ok? && !getopts(args[1..]).value.help &&
             Hacks.CrateTypesFromList(getopts(args[1..]).value.crateType).Err?) ==>
      out.exitCode == 1 && !out.usagePrinted && out.errorLine.Some?
    ensures |args| > 1 && getopts(args[1..]).Err? ==>
      out == MainOutcome(1, false, Some("error: " + getopts(args[1..]).error))
  {
    RunMode(ParseConfig(args, getopts), enchamber)
  }
}
