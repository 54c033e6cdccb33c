# rust-chamber: the sandbox's admission rule and its driver, in Dafny

rust-chamber compiles untrusted Rust against a substituted standard library
(a "chamber") and refuses code that could escape it. This project models the
parts of it that decide things:

- **The policy lint passes** (`chamber_plugin.dfy`, module `ChamberPlugin`).
  The plugin registrar installs two lint passes, in order. `UnsafeBlockPass`
  reports an error at the span of every `unsafe` block, whatever its origin.
  `ForeignItemPass` reports an error at the span of every foreign item.
  The compiler session is a class whose error list `span_err` extends. The
  registry is a class whose list of passes `register_lint_pass` extends. On
  top of the two checks, `CrateVerdict` models the lint framework visiting
  every node of a crate. The lemmas prove the admission rule: a crate draws
  no error exactly when it has no `unsafe` block and no foreign item. Each
  such node draws exactly one error, at its own span.
- **The driver's helpers** (`hacks.dfy`, module `Hacks`).
  `parse_crate_types_from_list` is an imperative method with nested loops
  and an early return. It is proved equal to a specification function whose
  properties are proved too: the order, the lengths, the fixed five names,
  and the error for the first unknown part. Rust's `split`, which keeps empty
  pieces, is modelled with a round-trip proof against `Join`. The monitor is
  a method whose inputs are the outcome of the compilation task, whether
  `RUST_MIN_STACK` is set, the `rtopt` build flag, and the captured stderr.
  It decides the stack size and the exact diagnostics written. Every failure
  silences stderr and fails the monitor.
- **Session setup** (`chamber_lib.dfy`, module `Chamber`).
  `build_session_options` collects the configured search paths plus `.`,
  `./target` and `./target/deps` into a set. It fixes the output type to an
  executable and copies the crate types and sysroot. `get_chamber_plugins`
  loads no macros and only the chamber's registrar.
- **The command-line driver** (`driver.dfy`, module `Driver`).
  `parse_config` decides between compiling, showing the help and reporting
  a parse error. Its rules are ordered: no arguments, an option-parser
  failure, a help flag, a bad crate type, then exactly one input file.
  `main` turns that decision into the exit status.

`wrappers.dfy` holds `Option` and `Result`.

Facts about the code that the model keeps:

- Only two passes exist: `unsafe` blocks and foreign items.
- `UnsafeBlock(_)` matches compiler-generated blocks too, so they draw the
  same error as user-written ones.
- The monitor prints the captured compiler stderr on stdout (`println!`),
  not on stderr.
- `monitor_for_real` (src/chamber/party_favors.rs) is a one-line wrapper
  around `monitor`, so it sits beside it in module `Hacks` as
  `Hacks.MonitorForReal`.

## Model

| member | source | states |
|---|---|---|
| ChamberPlugin.GetLints | src/chamber_plugin/lib.rs:33-42 | each pass declares exactly one lint, at level Forbid, and the two passes declare different lints |
| ChamberPlugin.RegisteredLintsForbid | src/chamber_plugin/lib.rs:33-65 | every lint of every registered pass is Forbid, and the two passes' lints differ |
| ChamberPlugin.BlockVerdict | src/chamber_plugin/lib.rs:44-52 | a block draws an error iff its rules are `UnsafeBlock(_)`, of any origin; the error is the single message "chamber: `unsafe` block" at the block's span |
| ChamberPlugin.ForeignItemVerdict | src/chamber_plugin/lib.rs:67-69 | every foreign item draws exactly one error, unconditionally, at its span, with "chamber: foreign item" |
| ChamberPlugin.Session.SpanErr | src/chamber_plugin/lib.rs:48 | `span_err` appends one error with that span and message to the session, and nothing else |
| ChamberPlugin.CheckBlock | src/chamber_plugin/lib.rs:44-52 | the session gains exactly the block's verdict; a default block leaves the session unchanged |
| ChamberPlugin.CheckForeignItem | src/chamber_plugin/lib.rs:67-69 | the session gains exactly one error for the item; the error count rises by one |
| ChamberPlugin.Registry.RegisterLintPass | src/chamber_plugin/lib.rs:28 | the pass is appended to the registry's passes |
| ChamberPlugin.PluginRegistrar | src/chamber_plugin/lib.rs:26-30 | the registry gains exactly UnsafeBlockPass then ForeignItemPass, and nothing else |
| ChamberPlugin.ChamberNodeVerdict | src/chamber_plugin/lib.rs:27-30 | with the registered passes, a node draws exactly one error if it is an `unsafe` block or a foreign item, and none otherwise |
| ChamberPlugin.CrateVerdictAppend | src/chamber_plugin/lib.rs:36-37 | passes are stateless: the report for a crate is the concatenation of the reports for its parts, independent of earlier visits |
| ChamberPlugin.AdmittedIff | src/chamber_plugin/lib.rs:44-69 | a crate draws no error iff none of its nodes is an `unsafe` block or a foreign item |
| ChamberPlugin.EveryViolationReported | src/chamber_plugin/lib.rs:46-48 | every forbidden node is reported at its own span with its pass's message |
| ChamberPlugin.OnlyViolationsReported | src/chamber_plugin/lib.rs:46-50 | every reported error is the error of some forbidden node of the crate |
| ChamberPlugin.CrateVerdictIsViolations | src/chamber_plugin/lib.rs:44-69 | the whole report is one error per forbidden node, in the order of the nodes, and nothing else |
| ChamberPlugin.OneErrorPerViolation | src/chamber_plugin/lib.rs:47-49 | the number of errors equals the number of forbidden nodes |
| Hacks.Split | src/chamber/hacks.rs:51 | splitting gives at least one piece, no piece contains the separator, and joining the pieces gives back the input |
| Hacks.SplitJoin | src/chamber/hacks.rs:51 | splitting undoes joining of separator-free pieces, so empty pieces are kept |
| Hacks.CrateTypeNamed | src/chamber/hacks.rs:52-62 | a part names a crate type iff it is one of "lib", "rlib", "staticlib", "dylib", "bin", case-sensitive; "lib" names the default library output (`rlib`); every other accepted word is the name of the crate type it gives |
| Hacks.CrateTypeNames | src/chamber/hacks.rs:52-57 | each crate type is named by its own word: parsing the name of a crate type gives back that crate type |
| Hacks.ParseParts | src/chamber/hacks.rs:52-63 | success iff every part is a known name; then one crate type per part, in order; otherwise the error names the first unknown part |
| Hacks.ParseCrateTypesFromList | src/chamber/hacks.rs:43-68 | the nested loops with early return compute exactly the specification: the parts of all values, in order, mapped, or the first unknown part's error |
| Hacks.AllPartsLength | src/chamber/hacks.rs:50-51 | every value contributes at least one part |
| Hacks.EmptyPartRejected | src/chamber/hacks.rs:51-61 | an empty value or one ending in `,` makes the whole parse fail |
| Hacks.TrailingCommaMessage | src/chamber/hacks.rs:58-61 | "rlib," fails with "unknown crate type: ``" |
| Hacks.StackSize | src/chamber/hacks.rs:81-84 | `STACK_SIZE` is 6,000,000 when built with `rtopt` and 20,000,000 otherwise |
| Hacks.BugNoteEmissions | src/chamber/hacks.rs:118-126 | the three fixed notes, at level Note, in order |
| Hacks.Monitor | src/chamber/hacks.rs:70-148 | stack size is STACK_SIZE (6 MB with rtopt, 20 MB otherwise) iff RUST_MIN_STACK is unset; nothing is written on success or on a fatal error; "unexpected failure" (Bug) is written iff the failure is neither fatal error nor explicit bug, and comes first; then the three notes, then a read error if any; the captured text goes to stdout; every failure silences stderr and fails the monitor |
| Hacks.MonitorForReal | src/chamber/party_favors.rs:13-22 | the chamber's result is an error exactly when the monitor failed |
| Chamber.BuildSessionOptions | src/chamber/lib.rs:79-102 | the search paths are the configured ones plus ".", "./target", "./target/deps" as a set, at most three more than configured; output types are exactly [Exe]; crate types and sysroot are copied |
| Chamber.SearchPathDuplicates | src/chamber/lib.rs:92-93 | naming a path twice, or naming a convenience path, leaves the search-path set unchanged |
| Chamber.SearchPathOrder | src/chamber/lib.rs:92-93 | the order of the configured paths does not affect the search-path set |
| Chamber.GetChamberPlugins | src/chamber/lib.rs:104-109 | no macros and a single registrar |
| Chamber.ChamberPluginsInstallPolicy | src/chamber/lib.rs:104-109 | the registrars loaded install exactly the unsafe-block pass then the foreign-item pass, all of whose lints are Forbid |
| Driver.ChamberName | src/chamber/driver.rs:71 | the `--chamber` value, or "rcr_baseline" when absent |
| Driver.ParseConfig | src/chamber/driver.rs:44-88 | program name alone gives Help; a parser failure gives ParseError with its text; a help flag gives Help even with a bad crate type; a crate-type error passes through as ParseError; zero or two or more free arguments give Help; Run iff exactly one free argument and everything else succeeds; Run's config copies the input file, chamber, crate types, `-L` paths in order, out-dir, `-o` and sysroot |
| Driver.ParseErrorCause | src/chamber/driver.rs:53-63 | every ParseError carries the option parser's text or names the first unknown crate type |
| Driver.RunMode | src/chamber/driver.rs:18-33 | exit 0 iff Help or a Run whose compilation succeeds, else 1; the usage text is printed exactly for Help; an error line "error: …" is printed exactly for ParseError |
| Driver.Main | src/chamber/driver.rs:14-36 | program name alone, or a help flag, prints the usage text and no error line and exits 0, even with a bad crate type; a bad crate type without help prints an error line, not the usage, and exits 1; an option-parser failure prints "error: " and its text and exits 1 |

## Left out

- `compile_input` and `phase_2_configure_and_expand` (src/chamber/hacks.rs:150-325): a sequence of calls into compiler phases, plugin loading and expansion in a library that is not part of this model.
- `enchamber` (src/chamber/lib.rs:49-77): glue that builds a compiler session and runs `compile_input` inside the monitor; `Driver.RunMode` takes its result as a parameter.
- The standard-library substitution module `std_inject` (src/chamber/lib.rs:31) is not part of this model; its source is not available.
- The monitor's task and channel mechanics (`TaskBuilder`, the channel-backed stderr capture, `task.try`): concurrency and I/O. The task's outcome, the `RUST_MIN_STACK` lookup, the `rtopt` build flag and the text read back are inputs of `Hacks.Monitor`; `fail!` is the `Failed` exit.
- `optgroups` and `usage` (src/chamber/driver.rs:90-113): the option table and help text. The option parser is an opaque function from the arguments to a `Matches` record or a failure text; `-h` and `--help` are one option there, so one `help` flag stands for both. `Driver.MainOutcome` records that the usage text was printed, not the text itself.
- src/rcr_baseline/lib.rs: re-exports only.
- `default_lib_output()` belongs to the compiler; it is modelled as `rlib`.
- `basic_options()`: the session options other than crate types, search paths, sysroot and output types keep the compiler's defaults and are not modelled.
- The lint framework's traversal of the crate is not shown in the source; `ChamberPlugin.CrateVerdict` models it as a visit of the crate's nodes in order, each offered to every registered pass.
- Chamber.BuildSessionOptions: compares search paths as raw strings. The source builds each path with the standard library's `Path::new`, which normalises it (so `target`, `./target/` and `./target` are one set element there); that normalisation belongs to the standard library and is not modelled, so the model's set can hold several spellings of one directory. The same holds for the `-L`, `-o`, `--out-dir`, `--sysroot` and input paths that `Driver.ParseConfig` copies.
- Driver.ParseConfig: `Driver.ParseConfig` and `Driver.Main` require the argument list to hold at least the program name. On an empty argument list, which a process can be started with, the source's `args.shift().unwrap()` (src/chamber/driver.rs:49) fails the main task; that failure is not modelled.
- Chamber.GetChamberPlugins: its own contract gives only the shape (no macros, one registrar); which registrar it is and what it installs is stated by `Chamber.ChamberPluginsInstallPolicy`.
