/**
 * The sandbox's admission rule: the two lint passes that the chamber plugin
 * registers with the compiler. Each pass reports an error to the session for
 * every node it forbids; a crate is admitted only when no pass reports.
 */
module ChamberPlugin {

  /** A source span, as byte positions into the compilation unit. */
  datatype Span = Span(lo: nat, hi: nat)

  /** Where an `unsafe` block came from: written by the user or inserted by the compiler. */
  datatype UnsafeSource = CompilerGenerated | UserProvided

  /** The rules of a block: an ordinary block or an `unsafe` one. */
  datatype BlockCheckMode = DefaultBlock | UnsafeBlock(source: UnsafeSource)

  datatype Block = Block(rules: BlockCheckMode, span: Span)

  /** A foreign (`extern`) function or static, declared by `name`. */
  datatype ForeignItem = ForeignItem(name: string, span: Span)

  /** The two node kinds that the chamber's passes look at. */
  datatype Node = BlockNode(block: Block) | ForeignItemNode(item: ForeignItem)

  /** An error reported through the session's `span_err`. */
  datatype Diagnostic = Diagnostic(span: Span, message: string)

  datatype Level = Allow | Warn | Deny | Forbid

  /** A lint as `declare_lint!` builds it: name, default level and description. */
  datatype Lint = Lint(name: string, defaultLevel: Level, desc: string)

  /** The two passes; both are fieldless, so a pass carries no state between visits. */
  datatype PassKind = UnsafeBlockPass | ForeignItemPass

  const UNSAFE_BLOCK_LINT := Lint("UNSAFE_BLOCK_LINT", Forbid, "`unsafe` blocks")
  const FOREIGN_ITEM_LINT := Lint("FOREIGN_ITEM_LINT", Forbid, "foreign fns, statics, etc.")

  const UNSAFE_BLOCK_MESSAGE := "chamber: `unsafe` block"
  const FOREIGN_ITEM_MESSAGE := "chamber: foreign item"

  /** The lints a pass declares (its `get_lints`). */
  function GetLints(pass: PassKind): (lints: seq<Lint>)
    ensures |lints| == 1 && lints[0].defaultLevel == Forbid
    ensures pass == UnsafeBlockPass <==> lints[0].name == "UNSAFE_BLOCK_LINT"
  {
    match pass
    case UnsafeBlockPass => [UNSAFE_BLOCK_LINT]
    case ForeignItemPass => [FOREIGN_ITEM_LINT]
  }

  /** What `check_block` of UnsafeBlockPass reports for one block. */
  function BlockVerdict(block: Block): (errs: seq<Diagnostic>)
    ensures errs != [] <==> block.rules.UnsafeBlock?
    ensures errs != [] ==> errs == [Diagnostic(block.span, UNSAFE_BLOCK_MESSAGE)]
  {
    match block.rules
    case UnsafeBlock(_) => [Diagnostic(block.span, UNSAFE_BLOCK_MESSAGE)]
    case DefaultBlock => []
  }

  /** What `check_foreign_item` of ForeignItemPass reports for one foreign item. */
  function ForeignItemVerdict(item: ForeignItem): (errs: seq<Diagnostic>)
    ensures |errs| == 1 && errs[0].span == item.span && errs[0].message == FOREIGN_ITEM_MESSAGE
  {
    [Diagnostic(item.span, FOREIGN_ITEM_MESSAGE)]
  }

  /**
   * What one pass reports when the lint framework visits one node. A pass
   * ignores the node kinds it has no check for (the framework's default
   * check does nothing).
   */
  function PassVerdict(pass: PassKind, node: Node): seq<Diagnostic>
  {
    match (pass, node)
    case (UnsafeBlockPass, BlockNode(b)) => BlockVerdict(b)
    case (ForeignItemPass, ForeignItemNode(i)) => ForeignItemVerdict(i)
    case _ => []
  }

  /** What the registered passes report for one node, in registration order. */
  function NodeVerdict(passes: seq<PassKind>, node: Node): seq<Diagnostic>
  {
    if passes == [] then []
    else PassVerdict(passes[0], node) + NodeVerdict(passes[1..], node)
  }

  /** What the registered passes report over the nodes of a crate, in visiting order. */
  function CrateVerdict(passes: seq<PassKind>, nodes: seq<Node>): seq<Diagnostic>
  {
    if nodes == [] then []
    else NodeVerdict(passes, nodes[0]) + CrateVerdict(passes, nodes[1..])
  }

  /** The passes that `plugin_registrar` installs, in order. */
  function ChamberPasses(): seq<PassKind>
  {
    [UnsafeBlockPass, ForeignItemPass]
  }

  /** A node the sandbox refuses: an `unsafe` block of any origin, or any foreign item. */
  predicate Forbidden(node: Node)
  {
    match node
    case BlockNode(b) => b.rules.UnsafeBlock?
    case ForeignItemNode(_) => true
  }

  /** The error a forbidden node draws: at the node's own span, with its pass's message. */
  function ViolationOf(node: Node): Diagnostic
  {
    match node
    case BlockNode(b) => Diagnostic(b.span, UNSAFE_BLOCK_MESSAGE)
    case ForeignItemNode(i) => Diagnostic(i.span, FOREIGN_ITEM_MESSAGE)
  }

  /** With the chamber's passes, a node draws exactly one error if it is forbidden and none otherwise. */
  lemma ChamberNodeVerdict(node: Node)
    ensures NodeVerdict(ChamberPasses(), node) == if Forbidden(node) then [ViolationOf(node)] else []
  {
    var passes := ChamberPasses();
    assert passes[1..] == [ForeignItemPass] && passes[1..][1..] == [];
    calc {
      NodeVerdict(passes, node);
      PassVerdict(UnsafeBlockPass, node) + NodeVerdict([ForeignItemPass], node);
      PassVerdict(UnsafeBlockPass, node) + PassVerdict(ForeignItemPass, node) + NodeVerdict([], node);
    }
  }

  /**
   * The passes are stateless: the report for a crate is the report for its
   * first part followed by the report for the rest, whatever was visited before.
   */
  lemma {:induction false} CrateVerdictAppend(passes: seq<PassKind>, a: seq<Node>, b: seq<Node>)
    ensures CrateVerdict(passes, a + b) == CrateVerdict(passes, a) + CrateVerdict(passes, b)
  {
    if a == [] {
      assert a + b == b;
    } else {
      assert (a + b)[0] == a[0];
      assert (a + b)[1..] == a[1..] + b;
      CrateVerdictAppend(passes, a[1..], b);
    }
  }

  /** A crate is admitted (no error reported) if and only if none of its nodes is forbidden. */
  lemma {:induction false} AdmittedIff(nodes: seq<Node>)
    ensures CrateVerdict(ChamberPasses(), nodes) == [] <==> forall i :: 0 <= i < |nodes| ==> !Forbidden(nodes[i])
  {
    if nodes != [] {
      ChamberNodeVerdict(nodes[0]);
      AdmittedIff(nodes[1..]);
      if forall i :: 0 <= i < |nodes[1..]| ==> !Forbidden(nodes[1..][i]) {
        if !Forbidden(nodes[0]) {
          forall i | 0 <= i < |nodes| ensures !Forbidden(nodes[i]) {
            if i > 0 { assert nodes[i] == nodes[1..][i - 1]; }
          }
        }
      } else {
        var j :| 0 <= j < |nodes[1..]| && Forbidden(nodes[1..][j]);
        assert Forbidden(nodes[j + 1]);
      }
    }
  }

  /** Every forbidden node of the crate is reported, at its own span, with its pass's message. */
  lemma {:induction false} EveryViolationReported(nodes: seq<Node>, i: nat)
    requires i < |nodes| && Forbidden(nodes[i])
    ensures ViolationOf(nodes[i]) in CrateVerdict(ChamberPasses(), nodes)
  {
    ChamberNodeVerdict(nodes[0]);
    if i > 0 {
      assert nodes[1..][i - 1] == nodes[i];
      EveryViolationReported(nodes[1..], i - 1);
    }
  }

  /** Every reported error is the violation of some forbidden node of the crate. */
  lemma {:induction false} OnlyViolationsReported(nodes: seq<Node>, d: Diagnostic)
    requires d in CrateVerdict(ChamberPasses(), nodes)
    ensures exists i :: 0 <= i < |nodes| && Forbidden(nodes[i]) && d == ViolationOf(nodes[i])
  {
    ChamberNodeVerdict(nodes[0]);
    if d in NodeVerdict(ChamberPasses(), nodes[0]) {
      assert Forbidden(nodes[0]) && d == ViolationOf(nodes[0]);
    } else {
      OnlyViolationsReported(nodes[1..], d);
      var j :| 0 <= j < |nodes[1..]| && Forbidden(nodes[1..][j]) && d == ViolationOf(nodes[1..][j]);
      assert nodes[1..][j] == nodes[j + 1];
    }
  }

  /** The errors of the forbidden nodes, one each, in the order of the nodes. */
  function Violations(nodes: seq<Node>): seq<Diagnostic>
  {
    if nodes == [] then []
    else (if Forbidden(nodes[0]) then [ViolationOf(nodes[0])] else []) + Violations(nodes[1..])
  }

  /** The whole report of the registered passes: one error per forbidden node, in order, and nothing else. */
  lemma {:induction false} CrateVerdictIsViolations(nodes: seq<Node>)
    ensures CrateVerdict(ChamberPasses(), nodes) == Violations(nodes)
  {
    if nodes != [] {
      ChamberNodeVerdict(nodes[0]);
      CrateVerdictIsViolations(nodes[1..]);
    }
  }

  /** Each forbidden node draws exactly one error: the report is as long as the number of forbidden nodes. */
  function CountForbidden(nodes: seq<Node>): nat
  {
    if nodes == [] then 0 else (if Forbidden(nodes[0]) then 1 else 0) + CountForbidden(nodes[1..])
  }

  lemma {:induction false} OneErrorPerViolation(nodes: seq<Node>)
    ensures |CrateVerdict(ChamberPasses(), nodes)| == CountForbidden(nodes)
  {
    if nodes != [] {
      ChamberNodeVerdict(nodes[0]);
      OneErrorPerViolation(nodes[1..]);
    }
  }

  /** The compiler session's error state, to which `span_err` appends. */
  class Session {
    var errors: seq<Diagnostic>

    constructor ()
      ensures errors == []
    {
      errors := [];
    }

    /** The session's error count; compilation stops before translation when it is not zero. */
    function ErrCount(): nat
      reads this
    {
      |errors|
    }

    method SpanErr(span: Span, message: string)
      modifies this
      ensures errors == old(errors) + [Diagnostic(span, message)]
    {
      errors := errors + [Diagnostic(span, message)];
    }
  }

  /** `UnsafeBlockPass::check_block`. */
  method CheckBlock(sess: Session, block: Block)
    modifies sess
    ensures sess.errors == old(sess.errors) + PassVerdict(UnsafeBlockPass, BlockNode(block))
    ensures block.rules.DefaultBlock? ==> sess.errors == old(sess.errors)
  {
    match block.rules {
      case UnsafeBlock(_) =>
        sess.SpanErr(block.span, UNSAFE_BLOCK_MESSAGE);
      case DefaultBlock =>
    }
  }

  /** `ForeignItemPass::check_foreign_item`: every foreign item is an error. */
  method CheckForeignItem(sess: Session, item: ForeignItem)
    modifies sess
    ensures sess.errors == old(sess.errors) + PassVerdict(ForeignItemPass, ForeignItemNode(item))
    ensures sess.ErrCount() == old(sess.ErrCount()) + 1
  {
    sess.SpanErr(item.span, FOREIGN_ITEM_MESSAGE);
  }

  /** The plugin registry, whose list of lint passes the registrar extends. */
  class Registry {
    var lintPasses: seq<PassKind>

    constructor ()
      ensures lintPasses == []
    {
      lintPasses := [];
    }

    method RegisterLintPass(pass: PassKind)
      modifies this
      ensures lintPasses == old(lintPasses) + [pass]
    {
      lintPasses := lintPasses + [pass];
    }
  }

  /** `plugin_registrar`: installs the two passes, unsafe blocks first, and nothing else. */
  method PluginRegistrar(reg: Registry)
    modifies reg
    ensures reg.lintPasses == old(reg.lintPasses) + ChamberPasses()
  {
    reg.RegisterLintPass(UnsafeBlockPass);
    reg.RegisterLintPass(ForeignItemPass);
  }

  /** Every lint the registered passes declare is at level Forbid, and the two passes declare different lints. */
  lemma RegisteredLintsForbid()
    ensures forall p :: p in ChamberPasses() ==> forall l :: l in GetLints(p) ==> l.defaultLevel == Forbid
    ensures GetLints(ChamberPasses()[0]) != GetLints(ChamberPasses()[1])
  {
  }
}
