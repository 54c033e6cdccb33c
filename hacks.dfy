/**
 * The driver's helpers: parsing the `--crate-type` lists, and the monitor
 * that runs one compilation attempt in its own task and turns a crash of
 * the compiler into a reported failure.
 */
module Hacks {
  import opened Wrappers

  // ---------------------------------------------------------------------------
  // Splitting on a separator, keeping empty pieces (Rust's `str::split`)
  // ---------------------------------------------------------------------------

  /** The pieces joined back together with the separator between them. */
  function Join(pieces: seq<string>, sep: char): string
    requires |pieces| >= 1
  {
    if |pieces| == 1 then pieces[0] else pieces[0] + [sep] + Join(pieces[1..], sep)
  }

  /**
   * `s.split(sep)`: the maximal separator-free pieces of `s`, empty ones
   * included, so `""` gives one empty piece and `"a,"` gives `"a"` and `""`.
   */
  function Split(s: string, sep: char): (pieces: seq<string>)
    ensures |pieces| >= 1
    ensures forall i :: 0 <= i < |pieces| ==> sep !in pieces[i]
    ensures Join(pieces, sep) == s
  {
    if s == [] then [[]]
    else
      var rest := Split(s[1..], sep);
      if s[0] == sep then
        assert ([[]] + rest)[1..] == rest;
        [[]] + rest
      else
        var pieces := [[s[0]] + rest[0]] + rest[1..];
        assert pieces[1..] == rest[1..];
        assert |rest| > 1 ==> Join(rest, sep) == rest[0] + [sep] + Join(rest[1..], sep);
        pieces
  }

  /** A separator-free string is a single piece. */
  lemma {:induction false} SplitNoSep(a: string, sep: char)
    requires sep !in a
    ensures Split(a, sep) == [a]
  {
    if a != [] {
      SplitNoSep(a[1..], sep);
      assert [a[0]] + a[1..] == a;
    }
  }

  /** Splitting `a ++ sep ++ b` with a separator-free `a` gives `a` followed by the pieces of `b`. */
  lemma {:induction false} SplitAfterSep(a: string, b: string, sep: char)
    requires sep !in a
    ensures Split(a + [sep] + b, sep) == [a] + Split(b, sep)
  {
    var s := a + [sep] + b;
    if a == [] {
      assert s[1..] == b;
    } else {
      assert s[1..] == a[1..] + [sep] + b;
      SplitAfterSep(a[1..], b, sep);
      assert [a[0]] + a[1..] == a;
    }
  }

  /** Split undoes Join on separator-free pieces: the two are inverse. */
  lemma {:induction false} SplitJoin(pieces: seq<string>, sep: char)
    requires |pieces| >= 1
    requires forall i :: 0 <= i < |pieces| ==> sep !in pieces[i]
    ensures Split(Join(pieces, sep), sep) == pieces
  {
    if |pieces| == 1 {
      SplitNoSep(pieces[0], sep);
    } else {
      SplitJoin(pieces[1..], sep);
      SplitAfterSep(pieces[0], Join(pieces[1..], sep), sep);
      assert [pieces[0]] + pieces[1..] == pieces;
    }
  }

  // ---------------------------------------------------------------------------
  // Crate types
  // ---------------------------------------------------------------------------

  datatype CrateType = CrateTypeExecutable | CrateTypeDylib | CrateTypeRlib | CrateTypeStaticlib

  /** The compiler's `default_lib_output()`: a Rust library, `rlib`. */
  function DefaultLibOutput(): CrateType
  {
    CrateTypeRlib
  }

  /** The crate type a `--crate-type` word names, if it is one of the five names (case-sensitive). */
  function CrateTypeNamed(part: string): (t: Option<CrateType>)
    ensures t.Some? <==> part in ["lib", "rlib", "staticlib", "dylib", "bin"]
    ensures part == "lib" ==> t == Some(CrateTypeRlib)
    ensures t.Some? && part != "lib" ==> CrateTypeName(t.value) == part
  {
    if part == "lib" then Some(DefaultLibOutput())
    else if part == "rlib" then Some(CrateTypeRlib)
    else if part == "staticlib" then Some(CrateTypeStaticlib)
    else if part == "dylib" then Some(CrateTypeDylib)
    else if part == "bin" then Some(CrateTypeExecutable)
    else None
  }

  /** The name the command line uses for each crate type. */
  function CrateTypeName(t: CrateType): string
  {
    match t
    case CrateTypeExecutable => "bin"
    case CrateTypeDylib => "dylib"
    case CrateTypeRlib => "rlib"
    case CrateTypeStaticlib => "staticlib"
  }

  /** Every crate type is named by its own word: naming undoes `CrateTypeName`. */
  lemma CrateTypeNames(t: CrateType)
    ensures CrateTypeNamed(CrateTypeName(t)) == Some(t)
  {
  }

  function UnknownCrateTypeMessage(part: string): string
  {
    "unknown crate type: `" + part + "`"
  }

  /** The comma-separated parts of every list, in order. */
  function AllParts(lists: seq<string>): seq<string>
  {
    if lists == [] then [] else Split(lists[0], ',') + AllParts(lists[1..])
  }

  /** A successful result with `done` placed in front of its value; a failure is kept as it is. */
  function Prefixed(done: seq<CrateType>, r: Result<seq<CrateType>, string>): Result<seq<CrateType>, string>
  {
    match r
    case Ok(v) => Ok(done + v)
    case Err(e) => Err(e)
  }

  /** Part `k` is the first part that names no crate type. */
  predicate FirstUnknown(parts: seq<string>, k: int)
  {
    0 <= k < |parts| && CrateTypeNamed(parts[k]).None? &&
    forall j :: 0 <= j < k ==> CrateTypeNamed(parts[j]).Some?
  }

  /**
   * The crate types the parts name, or the error for the first part that
   * names none; the parts after that one are not looked at.
   */
  function ParseParts(parts: seq<string>): (r: Result<seq<CrateType>, string>)
    ensures r.Ok? <==> forall i :: 0 <= i < |parts| ==> CrateTypeNamed(parts[i]).Some?
    ensures r.Ok? ==> (|r.value| == |parts| &&
      forall i :: 0 <= i < |parts| ==> CrateTypeNamed(parts[i]) == Some(r.value[i]))
    ensures r.Err? ==> exists k :: FirstUnknown(parts, k) && r.error == UnknownCrateTypeMessage(parts[k])
  {
    if parts == [] then Ok([])
    else
      match CrateTypeNamed(parts[0])
      case None => Err(UnknownCrateTypeMessage(parts[0]))
      case Some(t) =>
        var rest := ParseParts(parts[1..]);
        assert forall i :: 1 <= i < |parts| ==> parts[i] == parts[1..][i - 1];
        if rest.Err? then
          var k :| FirstUnknown(parts[1..], k) && rest.error == UnknownCrateTypeMessage(parts[1..][k]);
          assert FirstUnknown(parts, k + 1);
          rest
        else
          Prefixed([t], rest)
  }

  /** What `parse_crate_types_from_list` returns for the given `--crate-type` values. */
  function CrateTypesFromList(lists: seq<string>): Result<seq<CrateType>, string>
  {
    ParseParts(AllParts(lists))
  }

  /** The parts of `lists[i..]`: those of value `i`, then those of the later values. */
  lemma AllPartsFrom(lists: seq<string>, i: nat)
    requires i < |lists|
    ensures AllParts(lists[i..]) == Split(lists[i], ',') + AllParts(lists[i + 1..])
  {
    assert lists[i..][1..] == lists[i + 1..];
  }

  /** A known part `j` moves its crate type from the unparsed rest to the parsed prefix. */
  lemma ParseStepKnown(done: seq<CrateType>, t: CrateType, parts: seq<string>, j: nat, later: seq<string>)
    requires j < |parts| && CrateTypeNamed(parts[j]) == Some(t)
    ensures Prefixed(done, ParseParts(parts[j..] + later)) == Prefixed(done + [t], ParseParts(parts[j + 1..] + later))
  {
    var rest := parts[j..] + later;
    assert rest[0] == parts[j] && rest[1..] == parts[j + 1..] + later;
    var tail := ParseParts(parts[j + 1..] + later);
    if tail.Ok? {
      assert done + ([t] + tail.value) == done + [t] + tail.value;
    }
  }

  /** An unknown part `j` ends the parse with its error, whatever was parsed before. */
  lemma ParseStepUnknown(done: seq<CrateType>, parts: seq<string>, j: nat, later: seq<string>)
    requires j < |parts| && CrateTypeNamed(parts[j]).None?
    ensures Prefixed(done, ParseParts(parts[j..] + later)) == Err(UnknownCrateTypeMessage(parts[j]))
  {
    assert (parts[j..] + later)[0] == parts[j];
  }

  /** `parse_crate_types_from_list`: split every value on `,`, map each part, stop at the first unknown one. */
  method ParseCrateTypesFromList(lists: seq<string>) returns (r: Result<seq<CrateType>, string>)
    ensures r == CrateTypesFromList(lists)
  {
    ghost var spec := CrateTypesFromList(lists);
    var crateTypes: seq<CrateType> := [];
    var i := 0;
    assert lists[i..] == lists;
    assert Prefixed([], spec) == spec by {
      if spec.Ok? {
        assert [] + spec.value == spec.value;
      }
    }
    while i < |lists|
      invariant 0 <= i <= |lists|
      invariant spec == Prefixed(crateTypes, ParseParts(AllParts(lists[i..])))
    {
      var parts := Split(lists[i], ',');
      ghost var later := AllParts(lists[i + 1..]);
      AllPartsFrom(lists, i);
      assert parts[0..] == parts;
      var j := 0;
      while j < |parts|
        invariant 0 <= j <= |parts|
        invariant spec == Prefixed(crateTypes, ParseParts(parts[j..] + later))
      {
        var newPart := CrateTypeNamed(parts[j]);
        if newPart.None? {
          ParseStepUnknown(crateTypes, parts, j, later);
          return Err(UnknownCrateTypeMessage(parts[j]));
        }
        ParseStepKnown(crateTypes, newPart.value, parts, j, later);
        crateTypes := crateTypes + [newPart.value];
        j := j + 1;
      }
      assert parts[j..] == [];
      assert [] + later == later;
      i := i + 1;
    }
    assert AllParts(lists[i..]) == [];
    assert spec == Ok(crateTypes) by {
      assert crateTypes + [] == crateTypes;
    }
    return Ok(crateTypes);
  }

  /** Each value contributes at least one part, since splitting keeps empty pieces. */
  lemma {:induction false} AllPartsLength(lists: seq<string>)
    ensures |AllParts(lists)| >= |lists|
  {
    if lists != [] {
      AllPartsLength(lists[1..]);
    }
  }

  /** A value that is empty or ends with the separator has an empty last piece. */
  lemma {:induction false} SplitTrailingSep(s: string, sep: char)
    requires s == [] || s[|s| - 1] == sep
    ensures Split(s, sep)[|Split(s, sep)| - 1] == []
  {
    if s != [] && |s| > 1 {
      assert s[1..][|s[1..]| - 1] == sep;
      SplitTrailingSep(s[1..], sep);
    }
  }

  /** Every piece of every value is among the parts that are parsed. */
  lemma {:induction false} PieceInAllParts(lists: seq<string>, i: nat, k: nat)
    requires i < |lists| && k < |Split(lists[i], ',')|
    ensures Split(lists[i], ',')[k] in AllParts(lists)
  {
    if i > 0 {
      assert lists[1..][i - 1] == lists[i];
      PieceInAllParts(lists[1..], i - 1, k);
    }
  }

  /**
   * Because empty pieces are kept, an empty value or a value with a trailing
   * comma (such as "rlib,") makes the whole parse fail.
   */
  lemma EmptyPartRejected(lists: seq<string>, i: nat)
    requires i < |lists| && (lists[i] == "" || lists[i][|lists[i]| - 1] == ',')
    ensures CrateTypesFromList(lists).Err?
  {
    var pieces := Split(lists[i], ',');
    SplitTrailingSep(lists[i], ',');
    PieceInAllParts(lists, i, |pieces| - 1);
    assert CrateTypeNamed("").None?;
  }

  /** "rlib," splits into "rlib" and an empty part. */
  lemma PartsOfTrailingComma()
    ensures AllParts(["rlib,"]) == ["rlib", ""]
  {
    SplitAfterSep("rlib", "", ',');
    assert "rlib" + [','] + "" == "rlib,";
    assert Split("", ',') == [""];
    assert AllParts(["rlib,"][1..]) == [];
  }

  /** The error for "rlib," names the empty part after the comma. */
  lemma TrailingCommaMessage()
    ensures CrateTypesFromList(["rlib,"]) == Err("unknown crate type: ``")
  {
    PartsOfTrailingComma();
    var parts := ["rlib", ""];
    assert CrateTypeNamed("rlib") == Some(CrateTypeRlib);
    assert CrateTypeNamed("").None?;
    ParseStepKnown([], CrateTypeRlib, parts, 0, []);
    ParseStepUnknown([CrateTypeRlib], parts, 1, []);
    assert parts[0..] + [] == parts;
    assert UnknownCrateTypeMessage("") == "unknown crate type: ``";
    assert Prefixed([], ParseParts(parts)) == ParseParts(parts) by {
      assert ParseParts(parts).Err?;
    }
  }

  // ---------------------------------------------------------------------------
  // The monitor
  // ---------------------------------------------------------------------------

  /** How a compilation task failed: a reported fatal error, a reported compiler bug, or anything else. */
  datatype FailureKind = FatalError | ExplicitBug | OtherFailure

  /** What `task.try` returned for the compilation attempt. */
  datatype TaskResult = TaskOk | TaskFailed(kind: FailureKind)

  datatype DiagnosticLevel = Bug | Fatal | Error | Warning | Note

  /** One message written by the monitor's stderr emitter. */
  datatype Emission = Emission(level: DiagnosticLevel, message: string)

  /** What reading the captured stderr of the failed task gave. */
  datatype ReadResult = ReadOk(text: string) | ReadErr(error: string)

  /** The settings of the task the attempt runs in. */
  datatype TaskBuilder = TaskBuilder(name: Option<string>, stderrCaptured: bool, stackSize: Option<nat>)

  /** How `monitor` ends: it returns, or it fails its own task. */
  datatype MonitorExit = Returned | Failed

  const BUG_REPORT_URL := "http://doc.rust-lang.org/complement-bugreport.html"

  const BUG_NOTES: seq<string> := [
    "the compiler hit an unexpected failure path. this is a bug.",
    "we would appreciate a bug report: " + BUG_REPORT_URL,
    "run with `RUST_BACKTRACE=1` for a backtrace"
  ]

  const UNEXPECTED_FAILURE := Emission(Bug, "unexpected failure")

  /** The stack given to the compiler's task: 6 MB when built with `rtopt`, 20 MB otherwise. */
  function StackSize(rtopt: bool): (size: nat)
    ensures rtopt ==> size == 6000000
    ensures !rtopt ==> size == 20000000
  {
    if rtopt then 6000000 else 20000000
  }

  /** The three notes of a failure report, at level Note, in order. */
  function BugNoteEmissions(): (notes: seq<Emission>)
    ensures |notes| == |BUG_NOTES| && forall i :: 0 <= i < |notes| ==> notes[i] == Emission(Note, BUG_NOTES[i])
  {
    seq(|BUG_NOTES|, i requires 0 <= i < |BUG_NOTES| => Emission(Note, BUG_NOTES[i]))
  }

  /** The emitter writing to the real stderr. */
  class EmitterWriter {
    var emitted: seq<Emission>

    constructor ()
      ensures emitted == []
    {
      emitted := [];
    }

    method Emit(level: DiagnosticLevel, message: string)
      modifies this
      ensures emitted == old(emitted) + [Emission(level, message)]
    {
      emitted := emitted + [Emission(level, message)];
    }
  }

  /**
   * `monitor`: runs the attempt in a task named "rustc" whose stderr is
   * captured, with an explicit stack size unless `RUST_MIN_STACK` is set
   * (`minStackSet`). A failure that is not a reported fatal error is
   * reported on stderr: "unexpected failure" first unless the compiler
   * already reported its own bug, then the three notes, then the captured
   * text on stdout (or an error if it could not be read). Every failure
   * silences stderr and fails the monitor itself.
   */
  method Monitor(rtopt: bool, minStackSet: bool, attempt: TaskResult, captured: ReadResult)
    returns (task: TaskBuilder, stderr: seq<Emission>, stdout: seq<string>, stderrSilenced: bool, exit: MonitorExit)
    ensures task.name == Some("rustc") && task.stderrCaptured
    ensures task.stackSize == if minStackSet then None else Some(StackSize(rtopt))
    ensures exit == Returned <==> attempt == TaskOk
    ensures stderrSilenced <==> attempt.TaskFailed?
    ensures stderr != [] <==> attempt == TaskFailed(ExplicitBug) || attempt == TaskFailed(OtherFailure)
    ensures UNEXPECTED_FAILURE in stderr <==> attempt == TaskFailed(OtherFailure)
    ensures attempt == TaskFailed(OtherFailure) ==> stderr[0] == UNEXPECTED_FAILURE
    ensures stderr != [] ==>
      |stderr| >= 3 && (attempt == TaskFailed(OtherFailure) ==> |stderr| >= 4) &&
      var skip := if attempt == TaskFailed(OtherFailure) then 1 else 0;
      stderr[skip..skip + 3] == BugNoteEmissions() &&
      stderr[skip + 3..] == (if captured.ReadErr? then [Emission(Error, "failed to read internal stderr: " + captured.error)] else [])
    ensures stdout != [] <==> stderr != [] && captured.ReadOk?
    ensures stdout != [] ==> stdout == [captured.text]
  {
    task := TaskBuilder(Some("rustc"), true, None);
    if !minStackSet {
      task := task.(stackSize := Some(StackSize(rtopt)));
    }
    stderr, stdout, stderrSilenced := [], [], false;
    match attempt {
      case TaskOk =>
        exit := Returned;
      case TaskFailed(kind) =>
        if kind != FatalError {
          var emitter := new EmitterWriter();
          if kind != ExplicitBug {
            emitter.Emit(Bug, "unexpected failure");
          }
          ghost var before := emitter.emitted;
          var notes := BUG_NOTES;
          for i := 0 to |notes|
            invariant emitter.emitted == before + BugNoteEmissions()[..i]
          {
            emitter.Emit(Note, notes[i]);
            assert BugNoteEmissions()[..i + 1] == BugNoteEmissions()[..i] + [Emission(Note, notes[i])];
          }
          assert BugNoteEmissions()[..3] == BugNoteEmissions();
          match captured {
            case ReadOk(s) =>
              stdout := [s];
            case ReadErr(e) =>
              emitter.Emit(Error, "failed to read internal stderr: " + e);
          }
          stderr := emitter.emitted;
          assert UNEXPECTED_FAILURE !in BugNoteEmissions();
        }
        stderrSilenced := true;
        exit := Failed;
    }
  }

  /** `monitor_for_real`: the monitor's own failure becomes `Err(())`. */
  function MonitorForReal(exit: MonitorExit): (r: Result<(), ()>)
    ensures r.Err? <==> exit == Failed
  {
    match exit
    case Returned => Ok(())
    case Failed => Err(())
  }
}
