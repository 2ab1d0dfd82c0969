/** The abstract syntax tree the parsers build (src/types.rs).
    Identifiers are kept as their text; integer literals as LitInt (sign,
    value and digits as written); cache indices and op settings hold i64 values. */
module Ast {
  import opened Results
  import opened Tokens

  datatype GraphDsl = GraphDsl(sections: seq<Section>)

  datatype Section = Memory(mem: MemorySection) | Block(block: BlockSection)

  datatype MemoryKind = Dynamic | Volatile | Constant | Persistent

  datatype MemorySection = MemorySection(kind: MemoryKind, vars: seq<VarDecl>)

  datatype VarDecl = VarDecl(
    name: string,
    dtype: string,
    dims: seq<Dim>,
    init: Option<InitValue>,
    refName: Option<string>,
    pattern: Option<string>,
    tableIndices: seq<string>,
    table: bool,
    autoDim: seq<string>,
    fixed: seq<(string, LitInt)>)

  /** A shape component: a name, a literal, or a product of exactly two atoms. */
  datatype Dim = DimIdent(name: string) | DimLit(lit: LitInt) | DimMul(left: DimAtom, right: DimAtom)

  datatype DimAtom = AtomIdent(name: string) | AtomLit(lit: LitInt)

  /** An `@init` value as written: the literal plus an explicit sign (none for bools). */
  datatype InitValue =
    | FloatInit(flit: LitFloat, negative: bool)
    | IntInit(lit: LitInt, negative: bool)
    | BoolInit(b: bool)

  datatype BlockSection = BlockSection(name: string, nodes: seq<Node>)

  datatype Node =
    | Assign(assignNode: AssignNode)
    | Op(opNode: OpNode)
    | Branch(branchNode: BranchNode)
    | Barrier
    | Dep(depNode: DepNode)
    | CacheRead(readNode: CacheReadNode)
    | CacheWrite(writeNode: CacheWriteNode)
    | CacheInc(incNode: CacheIncNode)
    | CacheDec(decNode: CacheDecNode)
    | CacheReset(resetNode: CacheResetNode)
    | Transfer(transferNode: TransferNode)
    | Loop(loopNode: LoopNode)
    | Yield(yieldNode: YieldNode)
    | Await(awaitNode: AwaitNode)
    | Return

  datatype AssignNode = AssignNode(name: string, dtype: string, dims: seq<Dim>)

  datatype OpNode = OpNode(name: string, inputs: seq<VarRef>, settings: seq<OpSetting>, output: string)

  datatype BranchNode = BranchNode(cond: Option<string>, thenBlock: string, elseBlock: Option<string>)

  datatype DepNode = DepNode(after: string, before: string)

  /** The only node that owns child nodes. */
  datatype LoopNode = LoopNode(name: string, index: string, start: RangeValue, end: RangeValue, body: seq<Node>)

  datatype CacheReadNode = CacheReadNode(src: CacheAccess, dst: VarRef)

  datatype CacheWriteNode = CacheWriteNode(src: VarRef, dst: CacheAccess)

  datatype CacheIncNode = CacheIncNode(target: string, amount: Int64)

  datatype CacheDecNode = CacheDecNode(target: string, amount: Int64)

  datatype CacheResetNode = CacheResetNode(target: CacheAccess)

  datatype TransferNode = TransferNode(src: VarRef, dst: VarRef)

  datatype YieldNode = YieldNode(vars: seq<string>)

  datatype AwaitNode = AwaitNode(vars: seq<string>)

  datatype OpSetting = OpSetting(name: string, value: OpAttrValue)

  /** A floating-point value left uninterpreted: a literal, negated or not, or an infinity. */
  datatype FloatValue = Number(lit: LitFloat, negated: bool) | Infinity(negative: bool)

  datatype OpAttrValue =
    | FloatAttr(f: FloatValue)
    | DoubleAttr(d: FloatValue)
    | IntAttr(i: Int64)
    | BoolAttr(b: bool)
    | StringAttr(s: string)
    | IntListAttr(items: seq<Int64>)
    | VarAttr(name: string)

  datatype OpArg = Input(input: VarRef) | Setting(setting: OpSetting)

  datatype VarRef = VarRef(name: string, indices: seq<IndexExpr>)

  datatype CacheAccess = CacheAccess(name: string, indices: seq<CacheIndexExpr>, bracketed: bool)

  /** A single index, or a slice whose bounds are independently optional. */
  datatype CacheIndexExpr =
    | Single(value: CacheIndexValue)
    | Slice(start: Option<CacheIndexValue>, end: Option<CacheIndexValue>)

  datatype CacheIndexValue = CacheIdent(name: string) | CacheLit(n: Int64)

  datatype IndexExpr = IndexIdent(name: string) | IndexLit(lit: LitInt)

  datatype RangeValue = RangeIdent(name: string) | RangeLit(lit: LitInt)

  // ---- the node tree ----

  /** Number of nodes in a node tree; finite because only Loop has children. */
  function NodeSize(n: Node): (s: nat)
    ensures s >= 1
    ensures !n.Loop? ==> s == 1
    decreases n, 0
  {
    match n
    case Loop(l) => 1 + NodesSize(l.body)
    case _ => 1
  }

  function NodesSize(ns: seq<Node>): (s: nat)
    ensures s >= |ns|
    decreases ns, 1
  {
    if ns == [] then 0 else NodeSize(ns[0]) + NodesSize(ns[1..])
  }

  lemma {:induction false} NodesSizeElement(ns: seq<Node>, i: nat)
    requires i < |ns|
    ensures NodeSize(ns[i]) <= NodesSize(ns)
  {
    if i > 0 {
      NodesSizeElement(ns[1..], i - 1);
    }
  }
}
