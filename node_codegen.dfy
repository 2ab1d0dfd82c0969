/** Node lowering: each parsed node becomes a runtime `NodeKind`, loops carry
    their lowered bodies, and a block's top-level node becomes one graph-building
    statement (src/codegen/node.rs). */
module NodeCodegen {
  import opened Results
  import opened Tokens
  import opened Ast
  import opened MemoryCodegen
  import opened OpsValidation
  import opened DimsCodegen
  import opened CacheCodegen
  import opened RangeParser

  /** `::openinfer::NodeKind`, as the generated code builds it. The op kind stays its name:
      resolving it is left to the runtime. */
  datatype NodeKind =
    | KAssign(name: string, dtype: DType, dims: seq<string>)
    | KOp(op: string, attrs: map<string, AttrValue>, inputs: seq<string>, output: string)
    | KBranch(cond: Option<string>, thenBlock: string, elseBlock: Option<string>)
    | KBarrier
    | KDep(after: string, before: string)
    | KCacheRead(readSrc: RtCacheAccess, readDst: string)
    | KCacheWrite(writeSrc: string, writeDst: RtCacheAccess)
    | KCacheIncrement(incTarget: string, incAmount: Int64)
    | KCacheDecrement(decTarget: string, decAmount: Int64)
    | KCacheReset(resetTarget: RtCacheAccess)
    | KTransfer(src: string, dst: string)
    | KLoop(loopParts: LoopParts)
    | KYield(yieldVars: seq<string>)
    | KAwait(awaitVars: seq<string>)
    | KReturn

  /** The arguments of `make_loop_node` and of `NodeKind::Loop`: name, index, range and body. */
  datatype LoopParts = LoopParts(name: string, index: string, start: string, end: string, body: seq<BuiltNode>)

  /** One element of a lowered loop body: `g.make_node(kind)` or `g.make_loop_node(...)`. */
  datatype BuiltNode = MadeNode(kind: NodeKind) | MadeLoop(parts: LoopParts)

  /** The statement `node_stmt` emits for a block's top-level node. */
  datatype NodeStmt =
    | AddNode(block: string, kind: NodeKind)
    | AddPrebuiltNode(block: string, loopNode: LoopParts)

  // ---- strings ----

  /** `range_value_string`: a loop bound as the identifier or the literal's text. */
  function RangeValueString(v: RangeValue): string {
    match v
    case RangeIdent(name) => name
    case RangeLit(lit) => lit.Text()
  }

  /** A loop bound read from the input is rendered exactly as it was written: the
      identifier, the literal's digits, or `-` and the digits of syn's negative literal. */
  lemma RangeBoundSpelled(ts: seq<Token>)
    requires ParseRangeValue(ts).Ok?
    ensures PeekIdent(ts) ==> RangeValueString(ParseRangeValue(ts).value.out) == ts[0].name
    ensures |ts| > 0 && ts[0].IntTok? ==> RangeValueString(ParseRangeValue(ts).value.out) == ts[0].lit.Text()
    ensures NegatedInt(ts) ==> RangeValueString(ParseRangeValue(ts).value.out) == "-" + ts[1].lit.digits
  {
  }

  function IndexText(e: IndexExpr): string {
    match e
    case IndexIdent(name) => name
    case IndexLit(lit) => lit.Text()
  }

  function IndexTexts(es: seq<IndexExpr>): (r: seq<string>)
    ensures |r| == |es|
  {
    seq(|es|, i requires 0 <= i < |es| => IndexText(es[i]))
  }

  /** `items.join(",")`. */
  function Join(items: seq<string>): string {
    if items == [] then ""
    else if |items| == 1 then items[0]
    else Join(items[..|items| - 1]) + "," + items[|items| - 1]
  }

  /** The string `var_ref_string` builds: the bare name, or `name[i1,i2,...]`. */
  function VarRefText(v: VarRef): string {
    if v.indices == [] then v.name
    else v.name + "[" + Join(IndexTexts(v.indices)) + "]"
  }

  /** `var_ref_string`: pushes the name, then, when there are indices, the bracketed list. */
  method VarRefString(v: VarRef) returns (s: string)
    ensures s == VarRefText(v)
    ensures v.indices == [] <==> s == v.name
  {
    s := v.name;
    if v.indices != [] {
      var texts := IndexTexts(v.indices);
      var joined := texts[0];
      for i := 1 to |texts|
        invariant joined == Join(texts[..i])
      {
        assert texts[..i + 1][..i] == texts[..i];
        joined := joined + "," + texts[i];
      }
      assert texts[..|texts|] == texts;
      s := s + "[";
      s := s + joined;
      s := s + "]";
      assert |s| > |v.name|;
    }
  }

  // ---- reading a joined list back ----

  predicate CommaFree(s: string) {
    forall i :: 0 <= i < |s| ==> s[i] != ','
  }

  /** The position of the first comma, if any. */
  function CommaIndex(s: string): (r: Option<nat>)
    ensures r.None? <==> CommaFree(s)
    ensures r.Some? ==> r.value < |s| && s[r.value] == ',' && CommaFree(s[..r.value])
  {
    if s == [] then None
    else if s[0] == ',' then Some(0)
    else
      match CommaIndex(s[1..])
      case None => None
      case Some(k) =>
        assert s[..k + 1] == [s[0]] + s[1..][..k];
        Some(k + 1)
  }

  /** `split(',')`: the pieces between commas. */
  function Split(s: string): (r: seq<string>)
    ensures r != []
    decreases |s|
  {
    match CommaIndex(s)
    case None => [s]
    case Some(k) => [s[..k]] + Split(s[k + 1..])
  }

  /** Joining from the back is joining from the front. */
  lemma {:induction false} JoinFront(items: seq<string>)
    requires |items| >= 2
    ensures Join(items) == items[0] + "," + Join(items[1..])
    decreases |items|
  {
    if |items| > 2 {
      var init := items[..|items| - 1];
      JoinFront(init);
      assert init[1..] == items[1..][..|items[1..]| - 1];
      assert init[0] == items[0];
    } else {
      assert items[..1] == [items[0]];
      assert items[1..] == [items[1]];
    }
  }

  lemma {:induction false} CommaAfter(a: string, b: string)
    requires CommaFree(a)
    ensures CommaIndex(a + "," + b) == Some(|a|)
  {
    if a != [] {
      assert (a + "," + b)[1..] == a[1..] + "," + b;
      CommaAfter(a[1..], b);
    }
  }

  /** Splitting the joined, comma-free items gives the items back: the join loses nothing. */
  lemma {:induction false} JoinSplit(items: seq<string>)
    requires items != []
    requires forall i :: 0 <= i < |items| ==> CommaFree(items[i])
    ensures Split(Join(items)) == items
    decreases |items|
  {
    if |items| == 1 {
      assert Split(items[0]) == [items[0]];
    } else {
      JoinFront(items);
      var s := Join(items);
      CommaAfter(items[0], Join(items[1..]));
      assert s[..|items[0]|] == items[0];
      assert s[|items[0]| + 1..] == Join(items[1..]);
      JoinSplit(items[1..]);
      assert [items[0]] + items[1..] == items;
    }
  }

  /** An indexed reference reads back as its name, `[`, the index strings split at commas,
      and `]`: rendering keeps every index, in order. */
  lemma VarRefReadBack(v: VarRef)
    requires v.indices != []
    requires forall i :: 0 <= i < |v.indices| ==> CommaFree(IndexText(v.indices[i]))
    ensures |VarRefText(v)| >= |v.name| + 2
    ensures VarRefText(v)[..|v.name|] == v.name
    ensures VarRefText(v)[|v.name|] == '[' && VarRefText(v)[|VarRefText(v)| - 1] == ']'
    ensures Split(VarRefText(v)[|v.name| + 1..|VarRefText(v)| - 1]) == IndexTexts(v.indices)
  {
    var texts := IndexTexts(v.indices);
    var s := VarRefText(v);
    assert s[|v.name| + 1..|s| - 1] == Join(texts);
    JoinSplit(texts);
  }

  // ---- node kinds ----

  /** `node_kind_expr`: the runtime node kind; only an assign's dtype, an op's settings and a
      loop's body can fail. */
  function NodeKindOf(n: Node): (r: Result<NodeKind>)
    ensures n.Assign? ==> (r.Ok? <==> DTypeOf(n.assignNode.dtype).Ok?)
    ensures n.Op? ==> (r.Ok? <==> OpAttrsOf(n.opNode.settings).Ok?)
    ensures n.Loop? ==> (r.Ok? <==> LoopBodyOf(n.loopNode.body).Ok?)
    ensures !n.Assign? && !n.Op? && !n.Loop? ==> r.Ok?
    decreases n, 1
  {
    match n
    case Assign(a) =>
      var t :- DTypeOf(a.dtype);
      Ok(KAssign(a.name, t, DimsExpr(a.dims)))
    case Op(o) =>
      var attrs :- OpAttrsOf(o.settings);
      Ok(KOp(o.name, attrs, seq(|o.inputs|, i requires 0 <= i < |o.inputs| => VarRefText(o.inputs[i])), o.output))
    case Branch(b) => Ok(KBranch(b.cond, b.thenBlock, b.elseBlock))
    case Barrier => Ok(KBarrier)
    case Dep(d) => Ok(KDep(d.after, d.before))
    case CacheRead(c) => Ok(KCacheRead(CacheAccessExpr(c.src).value, VarRefText(c.dst)))
    case CacheWrite(c) => Ok(KCacheWrite(VarRefText(c.src), CacheAccessExpr(c.dst).value))
    case CacheInc(c) => Ok(KCacheIncrement(c.target, c.amount))
    case CacheDec(c) => Ok(KCacheDecrement(c.target, c.amount))
    case CacheReset(c) => Ok(KCacheReset(CacheAccessExpr(c.target).value))
    case Transfer(t) => Ok(KTransfer(VarRefText(t.src), VarRefText(t.dst)))
    case Loop(l) =>
      var parts :- LoopPartsOf(l);
      Ok(KLoop(parts))
    case Yield(y) => Ok(KYield(y.vars))
    case Await(w) => Ok(KAwait(w.vars))
    case Return => Ok(KReturn)
  }

  /** The name, index, bounds and lowered body of a loop. */
  function LoopPartsOf(l: LoopNode): (r: Result<LoopParts>)
    ensures r.Ok? <==> LoopBodyOf(l.body).Ok?
    decreases l, 0
  {
    var body :- LoopBodyOf(l.body);
    Ok(LoopParts(l.name, l.index, RangeValueString(l.start), RangeValueString(l.end), body))
  }

  /** One statement of `loop_body_expr`: a nested loop is built with its own body, any other
      node through `node_kind_expr`. */
  function BuiltNodeOf(n: Node): (r: Result<BuiltNode>)
    decreases n, 2
  {
    match n
    case Loop(l) =>
      var parts :- LoopPartsOf(l);
      Ok(MadeLoop(parts))
    case _ =>
      var kind :- NodeKindOf(n);
      Ok(MadeNode(kind))
  }

  /** `loop_body_expr`: the lowered body, in order, or the first error. */
  function LoopBodyOf(nodes: seq<Node>): (r: Result<seq<BuiltNode>>)
    decreases nodes, 3
  {
    if nodes == [] then Ok([])
    else
      var b :- BuiltNodeOf(nodes[0]);
      Prepend([b], LoopBodyOf(nodes[1..]))
  }

  /** `loop_body_expr`: a for loop over the body that pushes one statement per node. */
  method LoopBodyExpr(nodes: seq<Node>) returns (r: Result<seq<BuiltNode>>)
    ensures r == LoopBodyOf(nodes)
    decreases NodesSize(nodes), 1
  {
    var stmts: seq<BuiltNode> := [];
    PrependNothing(LoopBodyOf(nodes));
    for i := 0 to |nodes|
      invariant LoopBodyOf(nodes) == Prepend(stmts, LoopBodyOf(nodes[i..]))
    {
      assert nodes[i..][1..] == nodes[i + 1..];
      NodesSizeElement(nodes, i);
      var stmt := BuiltNodeExpr(nodes[i]);
      if stmt.Err? {
        return Err(stmt.msg);
      }
      PrependAppend(stmts, [stmt.value], LoopBodyOf(nodes[i + 1..]));
      stmts := stmts + [stmt.value];
    }
    assert nodes[|nodes|..] == [];
    PrependDone(stmts);
    return Ok(stmts);
  }

  /** The statement `loop_body_expr` builds for one node, recursing into a nested loop's body. */
  method BuiltNodeExpr(n: Node) returns (r: Result<BuiltNode>)
    ensures r == BuiltNodeOf(n)
    decreases NodeSize(n), 0
  {
    if n.Loop? {
      var l := n.loopNode;
      var body := LoopBodyExpr(l.body);
      if body.Err? {
        return Err(body.msg);
      }
      return Ok(MadeLoop(LoopParts(l.name, l.index, RangeValueString(l.start), RangeValueString(l.end), body.value)));
    } else {
      var kind := NodeKindOf(n);
      if kind.Err? {
        return Err(kind.msg);
      }
      return Ok(MadeNode(kind.value));
    }
  }

  /** `node_stmt`: a top-level loop is built and added prebuilt; any other node is added by kind. */
  function NodeStmtOf(n: Node, block: string): (r: Result<NodeStmt>)
    ensures r.Ok? <==> NodeKindOf(n).Ok?
    ensures r.Ok? ==> r.value.block == block
    ensures r.Ok? ==> (r.value.AddPrebuiltNode? <==> n.Loop?)
    ensures r.Ok? && !n.Loop? ==> r.value.kind == NodeKindOf(n).value
    ensures r.Ok? && n.Loop? ==> NodeKindOf(n).value == KLoop(r.value.loopNode)
  {
    match n
    case Loop(l) =>
      var parts :- LoopPartsOf(l);
      Ok(AddPrebuiltNode(block, parts))
    case _ =>
      var kind :- NodeKindOf(n);
      Ok(AddNode(block, kind))
  }

  // ---- properties of the lowering ----

  /** A lowered body has one built node per body node, a nested loop exactly where the body
      has a loop, and fails exactly when some body node fails. */
  lemma {:induction false} LoopBodyShape(nodes: seq<Node>)
    ensures LoopBodyOf(nodes).Ok? <==> forall i :: 0 <= i < |nodes| ==> BuiltNodeOf(nodes[i]).Ok?
    ensures LoopBodyOf(nodes).Ok? ==> |LoopBodyOf(nodes).value| == |nodes|
    ensures LoopBodyOf(nodes).Ok? ==> forall i :: 0 <= i < |nodes| ==>
              LoopBodyOf(nodes).value[i] == BuiltNodeOf(nodes[i]).value
              && (LoopBodyOf(nodes).value[i].MadeLoop? <==> nodes[i].Loop?)
    decreases |nodes|
  {
    if nodes != [] {
      LoopBodyShape(nodes[1..]);
      assert forall i :: 1 <= i < |nodes| ==> nodes[i] == nodes[1..][i - 1];
    }
  }

  /** The node kinds a lowering keeps field by field: strings copied, dtypes read back to the
      name written, cache accesses read back to the access written, op inputs rendered. */
  predicate KindKeeps(n: Node, k: NodeKind) {
    match n
    case Assign(a) => k.KAssign? && k.name == a.name && DTypeName(k.dtype) == a.dtype && k.dims == DimsExpr(a.dims)
    case Op(o) =>
      k.KOp? && k.op == o.name && k.output == o.output && OpAttrsOf(o.settings) == Ok(k.attrs)
      && |k.inputs| == |o.inputs| && (forall i :: 0 <= i < |o.inputs| ==> k.inputs[i] == VarRefText(o.inputs[i]))
    case Branch(b) =>
      k.KBranch? && k.cond == b.cond && k.thenBlock == b.thenBlock && k.elseBlock == b.elseBlock
    case Barrier => k.KBarrier?
    case Dep(d) => k.KDep? && k.after == d.after && k.before == d.before
    case CacheRead(c) => k.KCacheRead? && AccessOf(k.readSrc) == c.src && k.readDst == VarRefText(c.dst)
    case CacheWrite(c) => k.KCacheWrite? && k.writeSrc == VarRefText(c.src) && AccessOf(k.writeDst) == c.dst
    case CacheInc(c) => k.KCacheIncrement? && k.incTarget == c.target && k.incAmount == c.amount
    case CacheDec(c) => k.KCacheDecrement? && k.decTarget == c.target && k.decAmount == c.amount
    case CacheReset(c) => k.KCacheReset? && AccessOf(k.resetTarget) == c.target
    case Transfer(t) => k.KTransfer? && k.src == VarRefText(t.src) && k.dst == VarRefText(t.dst)
    case Loop(l) =>
      k.KLoop? && k.loopParts.name == l.name && k.loopParts.index == l.index
      && k.loopParts.start == RangeValueString(l.start) && k.loopParts.end == RangeValueString(l.end)
      && LoopBodyOf(l.body) == Ok(k.loopParts.body)
    case Yield(y) => k.KYield? && k.yieldVars == y.vars
    case Await(w) => k.KAwait? && k.awaitVars == w.vars
    case Return => k.KReturn?
  }

  /** Every successful lowering keeps the node's variant and its fields. */
  lemma NodeKindKeeps(n: Node)
    requires NodeKindOf(n).Ok?
    ensures KindKeeps(n, NodeKindOf(n).value)
  {
    match n
    case Assign(a) =>
    case CacheRead(c) => CacheAccessRoundTrip(c.src);
    case CacheWrite(c) => CacheAccessRoundTrip(c.dst);
    case CacheReset(c) => CacheAccessRoundTrip(c.target);
    case _ =>
  }

  /** A loop lowered at the top of a block and one lowered inside another loop's body get
      the same parts. */
  lemma LoopLoweringsAgree(l: LoopNode, block: string)
    requires LoopBodyOf(l.body).Ok?
    ensures NodeStmtOf(Loop(l), block) == Ok(AddPrebuiltNode(block, LoopPartsOf(l).value))
    ensures BuiltNodeOf(Loop(l)) == Ok(MadeLoop(LoopPartsOf(l).value))
  {
  }
}
