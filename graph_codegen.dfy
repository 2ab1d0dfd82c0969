/** Program expansion: the whole parsed program becomes an ordered list of
    graph-building statements (src/codegen/mod.rs). */
module GraphCodegen {
  import opened Results
  import opened Tokens
  import opened Ast
  import opened MemoryCodegen
  import opened DimsCodegen
  import opened NodeCodegen

  /** One statement of the generated block. */
  datatype GraphStmt =
    | NewGraph
    | AddVar(
        kind: MemoryKind,
        name: string,
        dtype: DType,
        dims: seq<string>,
        init: Option<Scalar>,
        refName: Option<string>,
        tableIndices: seq<string>,
        pattern: Option<string>,
        table: bool,
        autoDim: seq<string>,
        fixed: seq<(string, nat)>)
    | AddBlock(blockName: string)
    | AddNodeStmt(stmt: NodeStmt)

  /** The `@fixed` entries with their values read as `usize`, or the first that does not fit. */
  function FixedEntriesOf(fixed: seq<(string, LitInt)>): (r: Result<seq<(string, nat)>>)
  {
    if fixed == [] then Ok([])
    else
      var v :- ToUsize(fixed[0].1);
      Prepend([(fixed[0].0, v)], FixedEntriesOf(fixed[1..]))
  }

  /** Every entry keeps its name and its literal's value, in order; expansion fails exactly
      when some value is negative or too large for `usize`. */
  lemma {:induction false} FixedEntriesValues(fixed: seq<(string, LitInt)>)
    ensures FixedEntriesOf(fixed).Ok? <==> forall i :: 0 <= i < |fixed| ==> ToUsize(fixed[i].1).Ok?
    ensures FixedEntriesOf(fixed).Ok? ==>
              |FixedEntriesOf(fixed).value| == |fixed|
              && forall i :: 0 <= i < |fixed| ==>
                   FixedEntriesOf(fixed).value[i] == (fixed[i].0, fixed[i].1.magnitude)
    decreases |fixed|
  {
    if fixed != [] {
      FixedEntriesValues(fixed[1..]);
      assert forall i :: 1 <= i < |fixed| ==> fixed[i] == fixed[1..][i - 1];
    }
  }

  /** The `add_var` statement of one declaration: the dtype, then the init, then the fixed
      entries are checked, and the first failure aborts. */
  function VarStmtOf(kind: MemoryKind, v: VarDecl): (r: Result<GraphStmt>)
    ensures r.Ok? <==> DTypeOf(v.dtype).Ok? && InitExpr(v.init, v.dtype).Ok? && FixedEntriesOf(v.fixed).Ok?
    ensures DTypeOf(v.dtype).Err? ==> r == Err("unsupported dtype")
    ensures r.Ok? ==> r.value.AddVar? && r.value.kind == kind && r.value.name == v.name
    ensures r.Ok? ==> DTypeName(r.value.dtype) == v.dtype && r.value.dims == DimsExpr(v.dims)
    ensures r.Ok? ==> r.value.refName == v.refName && r.value.pattern == v.pattern
                      && r.value.tableIndices == v.tableIndices && r.value.table == v.table
                      && r.value.autoDim == v.autoDim
    ensures r.Ok? ==> (r.value.init.None? <==> v.init.None?)
    ensures r.Ok? ==> r.value.init == InitExpr(v.init, v.dtype).value
    ensures r.Ok? ==> |r.value.fixed| == |v.fixed|
                      && forall i :: 0 <= i < |v.fixed| ==> r.value.fixed[i] == (v.fixed[i].0, v.fixed[i].1.magnitude)
    ensures DTypeOf(v.dtype).Ok? && InitExpr(v.init, v.dtype).Err? ==> r == Err(InitExpr(v.init, v.dtype).msg)
  {
    FixedEntriesValues(v.fixed);
    var dtype :- DTypeOf(v.dtype);
    var init :- InitExpr(v.init, v.dtype);
    var fixed :- FixedEntriesOf(v.fixed);
    Ok(AddVar(kind, v.name, dtype, DimsExpr(v.dims), init, v.refName, v.tableIndices, v.pattern, v.table, v.autoDim, fixed))
  }

  /** The statements of a memory section's declarations, in order. */
  function VarStmtsOf(kind: MemoryKind, vars: seq<VarDecl>): (r: Result<seq<GraphStmt>>)
  {
    if vars == [] then Ok([])
    else
      var s :- VarStmtOf(kind, vars[0]);
      Prepend([s], VarStmtsOf(kind, vars[1..]))
  }

  /** The statements of a block's nodes, in order. */
  function NodeStmtsOf(nodes: seq<Node>, block: string): (r: Result<seq<GraphStmt>>)
  {
    if nodes == [] then Ok([])
    else
      var s :- NodeStmtOf(nodes[0], block);
      Prepend([AddNodeStmt(s)], NodeStmtsOf(nodes[1..], block))
  }

  /** One section: its declarations, or `add_block` followed by its nodes. */
  function SectionStmtsOf(s: Section): (r: Result<seq<GraphStmt>>)
  {
    match s
    case Memory(m) => VarStmtsOf(m.kind, m.vars)
    case Block(b) => Prepend([AddBlock(b.name)], NodeStmtsOf(b.nodes, b.name))
  }

  /** The statements of `first`, then those of `rest`; the first failure wins. */
  function Then(first: Result<seq<GraphStmt>>, rest: Result<seq<GraphStmt>>): Result<seq<GraphStmt>> {
    match first
    case Err(m) => Err(m)
    case Ok(done) => Prepend(done, rest)
  }

  lemma ThenPrepend(done: seq<GraphStmt>, first: Result<seq<GraphStmt>>, rest: Result<seq<GraphStmt>>)
    ensures Then(Prepend(done, first), rest) == Prepend(done, Then(first, rest))
  {
    if first.Ok? && rest.Ok? {
      assert (done + first.value) + rest.value == done + (first.value + rest.value);
    }
  }

  /** The sections' statements, section after section. */
  function SectionsStmtsOf(ss: seq<Section>): (r: Result<seq<GraphStmt>>)
  {
    if ss == [] then Ok([])
    else Then(SectionStmtsOf(ss[0]), SectionsStmtsOf(ss[1..]))
  }

  /** `GraphDsl::expand`: the graph is created first, then every section is lowered. */
  function ExpandOf(g: GraphDsl): (r: Result<seq<GraphStmt>>)
    ensures r.Ok? ==> |r.value| >= 1 && r.value[0] == NewGraph
    ensures r.Ok? <==> SectionsStmtsOf(g.sections).Ok?
  {
    Prepend([NewGraph], SectionsStmtsOf(g.sections))
  }

  /** `GraphDsl::expand`: nested loops over sections, declarations and nodes, pushing one
      statement at a time. */
  method Expand(g: GraphDsl) returns (r: Result<seq<GraphStmt>>)
    ensures r == ExpandOf(g)
  {
    var stmts: seq<GraphStmt> := [NewGraph];
    var sections := g.sections;
    for i := 0 to |sections|
      invariant ExpandOf(g) == Prepend(stmts, SectionsStmtsOf(sections[i..]))
    {
      assert sections[i..][1..] == sections[i + 1..];
      ghost var rest := SectionsStmtsOf(sections[i + 1..]);
      match sections[i]
      case Memory(m) =>
        for j := 0 to |m.vars|
          invariant ExpandOf(g) == Prepend(stmts, Then(VarStmtsOf(m.kind, m.vars[j..]), rest))
        {
          assert m.vars[j..][1..] == m.vars[j + 1..];
          var s := VarStmtOf(m.kind, m.vars[j]);
          if s.Err? {
            return Err(s.msg);
          }
          ThenPrepend([s.value], VarStmtsOf(m.kind, m.vars[j + 1..]), rest);
          PrependAppend(stmts, [s.value], Then(VarStmtsOf(m.kind, m.vars[j + 1..]), rest));
          stmts := stmts + [s.value];
        }
        assert m.vars[|m.vars|..] == [];
        PrependNothing(rest);
      case Block(b) =>
        ThenPrepend([AddBlock(b.name)], NodeStmtsOf(b.nodes, b.name), rest);
        PrependAppend(stmts, [AddBlock(b.name)], Then(NodeStmtsOf(b.nodes, b.name), rest));
        stmts := stmts + [AddBlock(b.name)];
        for j := 0 to |b.nodes|
          invariant ExpandOf(g) == Prepend(stmts, Then(NodeStmtsOf(b.nodes[j..], b.name), rest))
        {
          assert b.nodes[j..][1..] == b.nodes[j + 1..];
          var s := NodeStmtOf(b.nodes[j], b.name);
          if s.Err? {
            return Err(s.msg);
          }
          ThenPrepend([AddNodeStmt(s.value)], NodeStmtsOf(b.nodes[j + 1..], b.name), rest);
          PrependAppend(stmts, [AddNodeStmt(s.value)], Then(NodeStmtsOf(b.nodes[j + 1..], b.name), rest));
          stmts := stmts + [AddNodeStmt(s.value)];
        }
        assert b.nodes[|b.nodes|..] == [];
        PrependNothing(rest);
    }
    assert sections[|sections|..] == [];
    PrependDone(stmts);
    return Ok(stmts);
  }

  // ---- properties of the expansion ----

  lemma ThenAssociative(x: Result<seq<GraphStmt>>, y: Result<seq<GraphStmt>>, z: Result<seq<GraphStmt>>)
    ensures Then(Then(x, y), z) == Then(x, Then(y, z))
  {
    if x.Ok? {
      ThenPrepend(x.value, y, z);
    }
  }

  /** Sections are lowered in source order: the statements of `a + b` are those of `a`
      followed by those of `b`, and a failure in `a` comes first. */
  lemma {:induction false} SectionsAppend(a: seq<Section>, b: seq<Section>)
    ensures SectionsStmtsOf(a + b) == Then(SectionsStmtsOf(a), SectionsStmtsOf(b))
    decreases |a|
  {
    if a == [] {
      assert a + b == b;
      PrependNothing(SectionsStmtsOf(b));
    } else {
      assert (a + b)[0] == a[0];
      assert (a + b)[1..] == a[1..] + b;
      SectionsAppend(a[1..], b);
      ThenAssociative(SectionStmtsOf(a[0]), SectionsStmtsOf(a[1..]), SectionsStmtsOf(b));
    }
  }

  /** Expansion succeeds exactly when every section lowers. */
  lemma {:induction false} SectionsAllLower(ss: seq<Section>)
    ensures SectionsStmtsOf(ss).Ok? <==> forall i :: 0 <= i < |ss| ==> SectionStmtsOf(ss[i]).Ok?
    decreases |ss|
  {
    if ss != [] {
      SectionsAllLower(ss[1..]);
      assert forall i :: 1 <= i < |ss| ==> ss[i] == ss[1..][i - 1];
    }
  }

  /** A memory section emits exactly one `add_var` per declaration, in order, and fails
      exactly when one of its declarations does. */
  lemma {:induction false} MemorySectionShape(kind: MemoryKind, vars: seq<VarDecl>)
    ensures VarStmtsOf(kind, vars).Ok? <==> forall i :: 0 <= i < |vars| ==> VarStmtOf(kind, vars[i]).Ok?
    ensures VarStmtsOf(kind, vars).Ok? ==>
              |VarStmtsOf(kind, vars).value| == |vars|
              && forall i :: 0 <= i < |vars| ==> VarStmtsOf(kind, vars).value[i] == VarStmtOf(kind, vars[i]).value
    decreases |vars|
  {
    if vars != [] {
      var head := VarStmtOf(kind, vars[0]);
      var tail := VarStmtsOf(kind, vars[1..]);
      MemorySectionShape(kind, vars[1..]);
      assert forall i :: 1 <= i < |vars| ==> vars[i] == vars[1..][i - 1];
      if head.Ok? && tail.Ok? {
        assert VarStmtsOf(kind, vars) == Ok([head.value] + tail.value);
      } else if head.Ok? {
        assert VarStmtsOf(kind, vars).Err?;
      } else {
        assert VarStmtsOf(kind, vars) == Err(head.msg);
      }
    }
  }

  /** A block's nodes emit one statement each, in order, and fail exactly when one does. */
  lemma {:induction false} BlockNodesShape(nodes: seq<Node>, block: string)
    ensures NodeStmtsOf(nodes, block).Ok? <==> forall i :: 0 <= i < |nodes| ==> NodeStmtOf(nodes[i], block).Ok?
    ensures NodeStmtsOf(nodes, block).Ok? ==>
              |NodeStmtsOf(nodes, block).value| == |nodes|
              && forall i :: 0 <= i < |nodes| ==>
                   NodeStmtsOf(nodes, block).value[i] == AddNodeStmt(NodeStmtOf(nodes[i], block).value)
    decreases |nodes|
  {
    if nodes != [] {
      var head := NodeStmtOf(nodes[0], block);
      var tail := NodeStmtsOf(nodes[1..], block);
      BlockNodesShape(nodes[1..], block);
      assert forall i :: 1 <= i < |nodes| ==> nodes[i] == nodes[1..][i - 1];
      if head.Ok? && tail.Ok? {
        assert NodeStmtsOf(nodes, block) == Ok([AddNodeStmt(head.value)] + tail.value);
      } else if head.Ok? {
        assert NodeStmtsOf(nodes, block).Err?;
      } else {
        assert NodeStmtsOf(nodes, block) == Err(head.msg);
      }
    }
  }

  /** A block emits `add_block` before the statements of its nodes. */
  lemma BlockSectionShape(b: BlockSection)
    ensures SectionStmtsOf(Block(b)).Ok? <==> NodeStmtsOf(b.nodes, b.name).Ok?
    ensures SectionStmtsOf(Block(b)).Ok? ==>
              SectionStmtsOf(Block(b)).value == [AddBlock(b.name)] + NodeStmtsOf(b.nodes, b.name).value
  {
  }
}
