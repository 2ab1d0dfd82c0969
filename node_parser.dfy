/** The node grammar of a block: fifteen node forms chosen by their leading
    keyword, with loop bodies parsed recursively (src/parsers/node.rs). */
module NodeParser {
  import opened Results
  import opened Tokens
  import opened Ast
  import DimsParser
  import VarParser
  import RangeParser
  import CacheParser
  import OpParser

  // ---- dispatch ----

  /** The keywords that start a node, in the order `Node::parse` peeks them. */
  datatype NodeKeyword =
    | CacheKw | AssignKw | OpKw | BranchKw | BarrierKw | DepKw
    | LoopKw | YieldKw | AwaitKw | TransferKw | ReturnKw

  function NodeKeywordText(k: NodeKeyword): string {
    match k
    case CacheKw => "cache"
    case AssignKw => "assign"
    case OpKw => "op"
    case BranchKw => "branch"
    case BarrierKw => "barrier"
    case DepKw => "dep"
    case LoopKw => "loop"
    case YieldKw => "yield"
    case AwaitKw => "await"
    case TransferKw => "transfer"
    case ReturnKw => "return"
  }

  /** The keyword that starts the next node, if any. */
  function NodeKeywordOf(ts: seq<Token>): (r: Option<NodeKeyword>)
    ensures r.Some? ==> PeekKeyword(ts, NodeKeywordText(r.value))
  {
    if PeekKeyword(ts, "cache") then Some(CacheKw)
    else if PeekKeyword(ts, "assign") then Some(AssignKw)
    else if PeekKeyword(ts, "op") then Some(OpKw)
    else if PeekKeyword(ts, "branch") then Some(BranchKw)
    else if PeekKeyword(ts, "barrier") then Some(BarrierKw)
    else if PeekKeyword(ts, "dep") then Some(DepKw)
    else if PeekKeyword(ts, "loop") then Some(LoopKw)
    else if PeekKeyword(ts, "yield") then Some(YieldKw)
    else if PeekKeyword(ts, "await") then Some(AwaitKw)
    else if PeekKeyword(ts, "transfer") then Some(TransferKw)
    else if PeekKeyword(ts, "return") then Some(ReturnKw)
    else None
  }

  /** The cache operations after `cache.`, in the order they are peeked. */
  datatype CacheOp = ReadOp | WriteOp | IncOp | DecOp | ResetOp

  function CacheOpText(op: CacheOp): string {
    match op
    case ReadOp => "read"
    case WriteOp => "write"
    case IncOp => "increment"
    case DecOp => "decrement"
    case ResetOp => "reset"
  }

  function CacheOpOf(ts: seq<Token>): (r: Option<CacheOp>)
    ensures r.Some? ==> PeekKeyword(ts, CacheOpText(r.value))
  {
    if PeekKeyword(ts, "read") then Some(ReadOp)
    else if PeekKeyword(ts, "write") then Some(WriteOp)
    else if PeekKeyword(ts, "increment") then Some(IncOp)
    else if PeekKeyword(ts, "decrement") then Some(DecOp)
    else if PeekKeyword(ts, "reset") then Some(ResetOp)
    else None
  }

  // ---- the straight-line node forms, each read after its keyword ----

  /** `cache.read a >> x;`, `cache.write x >> a;`, `cache.increment 2 c;`,
      `cache.decrement c;` or `cache.reset a;`. */
  function CacheNodeOf(ts: seq<Token>): (r: Result<Parsed<Node>>)
    ensures r.Ok? ==> Size(r.value.rest) < Size(ts)
    ensures r.Ok? ==> PeekPunct(ts, Dot) && CacheOpOf(ts[1..]).Some?
    ensures PeekPunct(ts, Dot) && CacheOpOf(ts[1..]).None? ==> r == Err("unsupported cache operation")
  {
    var afterDot :- ExpectPunct(ts, Dot);
    match CacheOpOf(afterDot)
    case None => Err("unsupported cache operation")
    case Some(op) =>
      SizeFirst(afterDot);
      CacheBodyOf(op, afterDot[1..])
  }

  /** What follows `cache.<op>`. */
  function CacheBodyOf(op: CacheOp, ts: seq<Token>): (r: Result<Parsed<Node>>)
    ensures r.Ok? ==> Size(r.value.rest) < Size(ts)
  {
    match op
    case ReadOp => CacheReadOf(ts)
    case WriteOp => CacheWriteOf(ts)
    case IncOp =>
      var n :- CacheStepOf(ts);
      Ok(Parsed(CacheInc(n.out), n.rest))
    case DecOp =>
      var n :- CacheStepOf(ts);
      Ok(Parsed(CacheDec(CacheDecNode(n.out.target, n.out.amount)), n.rest))
    case ResetOp => CacheResetOf(ts)
  }

  /** `a;` after `cache.reset`. */
  function CacheResetOf(ts: seq<Token>): (r: Result<Parsed<Node>>)
    ensures r.Ok? ==> Size(r.value.rest) < Size(ts) && r.value.out.CacheReset?
  {
    var target :- CacheParser.ParseCacheAccess(ts);
    var end :- ExpectPunct(target.rest, Semi);
    Ok(Parsed(CacheReset(CacheResetNode(target.out)), end))
  }

  /** `a >> x;` after `cache.read`. */
  function CacheReadOf(ts: seq<Token>): (r: Result<Parsed<Node>>)
    ensures r.Ok? ==> Size(r.value.rest) < Size(ts) && r.value.out.CacheRead?
  {
    var src :- CacheParser.ParseCacheAccess(ts);
    var afterShr :- ExpectPunct(src.rest, Shr);
    var dst :- VarParser.ParseVarRef(afterShr);
    var end :- ExpectPunct(dst.rest, Semi);
    Ok(Parsed(CacheRead(CacheReadNode(src.out, dst.out)), end))
  }

  /** `x >> a;` after `cache.write`. */
  function CacheWriteOf(ts: seq<Token>): (r: Result<Parsed<Node>>)
    ensures r.Ok? ==> Size(r.value.rest) < Size(ts) && r.value.out.CacheWrite?
  {
    var src :- VarParser.ParseVarRef(ts);
    var afterShr :- ExpectPunct(src.rest, Shr);
    var dst :- CacheParser.ParseCacheAccess(afterShr);
    var end :- ExpectPunct(dst.rest, Semi);
    Ok(Parsed(CacheWrite(CacheWriteNode(src.out, dst.out)), end))
  }

  /** `[amount] target;` after `cache.increment` or `cache.decrement`; the amount is 1 when absent. */
  function CacheStepOf(ts: seq<Token>): (r: Result<Parsed<CacheIncNode>>)
    ensures r.Ok? ==> Size(r.value.rest) < Size(ts)
  {
    var amount :- CacheParser.ParseCacheAmount(ts);
    var target :- ExpectIdent(amount.rest);
    var end :- ExpectPunct(target.rest, Semi);
    Ok(Parsed(CacheIncNode(target.out, amount.out), end))
  }

  /** `assign name: dtype[dims];` */
  function AssignOf(ts: seq<Token>): (r: Result<Parsed<Node>>)
    ensures r.Ok? ==> Size(r.value.rest) < Size(ts) && r.value.out.Assign?
  {
    var name :- ExpectIdent(ts);
    var afterColon :- ExpectPunct(name.rest, Colon);
    var dtype :- ExpectIdent(afterColon);
    var dims :- DimsParser.DimsOf(dtype.rest);
    var end :- ExpectPunct(dims.rest, Semi);
    Ok(Parsed(Assign(AssignNode(name.out, dtype.out, dims.out)), end))
  }

  /** An op's arguments as the loop sorts them: inputs, then settings. */
  datatype OpArgs = OpArgs(inputs: seq<VarRef>, settings: seq<OpSetting>)

  /** Adds arguments already read in front of the outcome of the rest of the loop. */
  function Gather(inputs: seq<VarRef>, settings: seq<OpSetting>, r: Result<OpArgs>): Result<OpArgs> {
    match r
    case Ok(a) => Ok(OpArgs(inputs + a.inputs, settings + a.settings))
    case Err(m) => Err(m)
  }

  lemma GatherGather(i1: seq<VarRef>, s1: seq<OpSetting>, i2: seq<VarRef>, s2: seq<OpSetting>, r: Result<OpArgs>)
    ensures Gather(i1, s1, Gather(i2, s2, r)) == Gather(i1 + i2, s1 + s2, r)
  {
    if r.Ok? {
      assert i1 + (i2 + r.value.inputs) == (i1 + i2) + r.value.inputs;
      assert s1 + (s2 + r.value.settings) == (s1 + s2) + r.value.settings;
    }
  }

  lemma GatherNothing(r: Result<OpArgs>)
    ensures Gather([], [], r) == r
  {
    if r.Ok? {
      assert [] + r.value.inputs == r.value.inputs;
      assert [] + r.value.settings == r.value.settings;
    }
  }

  lemma GatherDone(inputs: seq<VarRef>, settings: seq<OpSetting>)
    ensures Gather(inputs, settings, Ok(OpArgs([], []))) == Ok(OpArgs(inputs, settings))
  {
    assert inputs + [] == inputs;
    assert settings + [] == settings;
  }

  /** The argument list of an op: `seenSetting` says whether a setting came already;
      a comma after an argument is optional. */
  function OpArgsOf(content: seq<Token>, seenSetting: bool): (r: Result<OpArgs>)
    ensures r.Ok? && seenSetting ==> r.value.inputs == []
    ensures r.Ok? && content == [] ==> r.value == OpArgs([], [])
    decreases Size(content)
  {
    if content == [] then Ok(OpArgs([], []))
    else
      var arg :- OpParser.OpArgOf(content);
      match arg.out
      case Input(v) =>
        if seenSetting then Err("positional args must come before settings")
        else Gather([v], [], OpArgsOf(SkipComma(arg.rest), false))
      case Setting(s) =>
        Gather([], [s], OpArgsOf(SkipComma(arg.rest), true))
  }

  /** The argument loop of `op`, with its `seen_setting` flag. */
  method ParseOpArgs(content0: seq<Token>) returns (r: Result<OpArgs>)
    ensures r == OpArgsOf(content0, false)
  {
    var content := content0;
    var inputs: seq<VarRef> := [];
    var settings: seq<OpSetting> := [];
    var seenSetting := false;
    GatherNothing(OpArgsOf(content, seenSetting));
    while content != []
      invariant OpArgsOf(content0, false) == Gather(inputs, settings, OpArgsOf(content, seenSetting))
      decreases Size(content)
    {
      var arg := OpParser.OpArgOf(content);
      if arg.Err? {
        return Err(arg.msg);
      }
      var next := SkipComma(arg.value.rest);
      match arg.value.out {
        case Input(v) =>
          if seenSetting {
            return Err("positional args must come before settings");
          }
          GatherGather(inputs, settings, [v], [], OpArgsOf(next, false));
          assert settings + [] == settings;
          inputs := inputs + [v];
        case Setting(s) =>
          GatherGather(inputs, settings, [], [s], OpArgsOf(next, true));
          assert inputs + [] == inputs;
          settings := settings + [s];
          seenSetting := true;
      }
      content := next;
    }
    GatherDone(inputs, settings);
    return Ok(OpArgs(inputs, settings));
  }

  /** `op name(args) >> output;`, where `>>` is read as two `>`. */
  function OpNodeOf(ts: seq<Token>): (r: Result<Parsed<Node>>)
    ensures r.Ok? ==> Size(r.value.rest) < Size(ts) && r.value.out.Op?
    ensures r.Ok? ==> PeekIdent(ts) && PeekGroup(ts[1..], Paren)
                      && OpArgsOf(ts[1].inner, false)
                         == Ok(OpArgs(r.value.out.opNode.inputs, r.value.out.opNode.settings))
  {
    var name :- ExpectIdent(ts);
    var args :- ExpectGroup(name.rest, Paren);
    var sorted :- OpArgsOf(args.out, false);
    var tail :- OpOutputOf(args.rest);
    Ok(Parsed(Op(OpNode(name.out, sorted.inputs, sorted.settings, tail.out)), tail.rest))
  }

  /** The `>> output;` that closes an op node. */
  function OpOutputOf(ts: seq<Token>): (r: Result<Parsed<string>>)
    ensures r.Ok? ==> Size(r.value.rest) < Size(ts)
  {
    var afterGt :- ExpectGt(ts);
    var afterShr :- ExpectGt(afterGt);
    var output :- ExpectIdent(afterShr);
    var end :- ExpectPunct(output.rest, Semi);
    Ok(Parsed(output.out, end))
  }

  /** `branch target;` or `branch cond then_block else_block;` */
  function BranchOf(ts: seq<Token>): (r: Result<Parsed<Node>>)
    ensures r.Ok? ==> Size(r.value.rest) < Size(ts) && r.value.out.Branch?
    ensures r.Ok? ==> (r.value.out.branchNode.cond.Some? <==> r.value.out.branchNode.elseBlock.Some?)
  {
    var first :- ExpectIdent(ts);
    if PeekPunct(first.rest, Semi) then
      Ok(Parsed(Branch(BranchNode(None, first.out, None)), first.rest[1..]))
    else
      var second :- ExpectIdent(first.rest);
      if PeekPunct(second.rest, Semi) then Err("branch expects condition and two target blocks")
      else
        var third :- ExpectIdent(second.rest);
        var end :- ExpectPunct(third.rest, Semi);
        Ok(Parsed(Branch(BranchNode(Some(first.out), second.out, Some(third.out))), end))
  }

  /** One identifier alone inside parentheses. */
  function ParenIdentOf(ts: seq<Token>): (r: Result<Parsed<string>>)
    ensures r.Ok? ==> PeekGroup(ts, Paren) && r.value.rest == ts[1..] && Size(r.value.rest) < Size(ts)
  {
    var group :- ExpectGroup(ts, Paren);
    var name :- ExpectIdent(group.out);
    :- ExpectEnd(name.rest);
    Ok(Parsed(name.out, group.rest))
  }

  /** `dep after(x) before(y);` */
  function DepOf(ts: seq<Token>): (r: Result<Parsed<Node>>)
    ensures r.Ok? ==> Size(r.value.rest) < Size(ts) && r.value.out.Dep?
  {
    var afterKw :- ExpectKeyword(ts, "after");
    var after :- ParenIdentOf(afterKw);
    var beforeKw :- ExpectKeyword(after.rest, "before");
    var before :- ParenIdentOf(beforeKw);
    var end :- ExpectPunct(before.rest, Semi);
    Ok(Parsed(Dep(DepNode(after.out, before.out)), end))
  }

  /** The loop header inside the parentheses: `i in start..end` and nothing else. */
  datatype LoopHeader = LoopHeader(index: string, start: RangeValue, end: RangeValue)

  function LoopHeaderOf(content: seq<Token>): (r: Result<LoopHeader>)
  {
    var index :- ExpectIdent(content);
    var afterIn :- ExpectKeyword(index.rest, "in");
    var start :- RangeParser.ParseRangeValue(afterIn);
    var afterDots :- ExpectPunct(start.rest, DotDot);
    var end :- RangeParser.ParseRangeValue(afterDots);
    :- ExpectEnd(end.rest);
    Ok(LoopHeader(index.out, start.out, end.out))
  }

  /** Prepends names already read to the outcome of the rest of a name list. */
  function PrependNames(done: seq<string>, r: Result<Parsed<seq<string>>>): (p: Result<Parsed<seq<string>>>)
    ensures p.Ok? <==> r.Ok?
    ensures p.Ok? ==> p.value == Parsed(done + r.value.out, r.value.rest)
  {
    match r
    case Ok(v) => Ok(Parsed(done + v.out, v.rest))
    case Err(m) => Err(m)
  }

  lemma PrependNamesTwice(done: seq<string>, item: seq<string>, r: Result<Parsed<seq<string>>>)
    ensures PrependNames(done, PrependNames(item, r)) == PrependNames(done + item, r)
  {
    if r.Ok? {
      assert done + (item + r.value.out) == (done + item) + r.value.out;
    }
  }

  /** The names of `yield`/`await`: read until `;`, a comma after a name is needed
      to read another, and a comma just before `;` is allowed. */
  function VarListOf(ts: seq<Token>): (r: Result<Parsed<seq<string>>>)
    ensures r.Ok? ==> Size(r.value.rest) <= Size(ts)
    ensures r.Ok? && r.value.out == [] ==> PeekPunct(ts, Semi) && r.value.rest == ts
    decreases Size(ts)
  {
    if PeekPunct(ts, Semi) then Ok(Parsed([], ts))
    else
      var name :- ExpectIdent(ts);
      if PeekPunct(name.rest, Comma) then
        SizeFirst(name.rest);
        PrependNames([name.out], VarListOf(name.rest[1..]))
      else Ok(Parsed([name.out], name.rest))
  }

  /** The `yield`/`await` loop. */
  method ParseVarList(ts0: seq<Token>) returns (r: Result<Parsed<seq<string>>>)
    ensures r == VarListOf(ts0)
  {
    var ts := ts0;
    var names: seq<string> := [];
    assert PrependNames([], VarListOf(ts)) == VarListOf(ts) by {
      if VarListOf(ts).Ok? {
        assert [] + VarListOf(ts).value.out == VarListOf(ts).value.out;
      }
    }
    while !PeekPunct(ts, Semi)
      invariant VarListOf(ts0) == PrependNames(names, VarListOf(ts))
      decreases Size(ts)
    {
      var name := ExpectIdent(ts);
      if name.Err? {
        return Err(name.msg);
      }
      var rest := name.value.rest;
      if !PeekPunct(rest, Comma) {
        return Ok(Parsed(names + [name.value.out], rest));
      }
      SizeFirst(rest);
      PrependNamesTwice(names, [name.value.out], VarListOf(rest[1..]));
      names := names + [name.value.out];
      ts := rest[1..];
    }
    assert names + [] == names;
    return Ok(Parsed(names, ts));
  }

  /** After `yield` or `await`: at least one name, then `;`. */
  function VarsNodeOf(ts: seq<Token>, keyword: string): (r: Result<Parsed<seq<string>>>)
    ensures r.Ok? ==> Size(r.value.rest) < Size(ts) && r.value.out != []
    ensures PeekPunct(ts, Semi) ==> r == Err(keyword + " expects at least one variable")
  {
    var vars :- VarListOf(ts);
    if vars.out == [] then Err(keyword + " expects at least one variable")
    else
      var end :- ExpectPunct(vars.rest, Semi);
      Ok(Parsed(vars.out, end))
  }

  /** `transfer x >> y;` */
  function TransferOf(ts: seq<Token>): (r: Result<Parsed<Node>>)
    ensures r.Ok? ==> Size(r.value.rest) < Size(ts) && r.value.out.Transfer?
  {
    var src :- VarParser.ParseVarRef(ts);
    var afterShr :- ExpectPunct(src.rest, Shr);
    var dst :- VarParser.ParseVarRef(afterShr);
    var end :- ExpectPunct(dst.rest, Semi);
    Ok(Parsed(Transfer(TransferNode(src.out, dst.out)), end))
  }

  // ---- nodes, and the recursion through loop bodies ----

  /** `Node::parse`: the leading keyword chooses the form. */
  function NodeOf(ts: seq<Token>): (r: Result<Parsed<Node>>)
    ensures r.Ok? ==> Size(r.value.rest) < Size(ts)
    ensures r.Ok? <==> NodeKeywordOf(ts).Some? && NodeBodyOf(NodeKeywordOf(ts).value, ts[1..]).Ok?
    ensures NodeKeywordOf(ts).None? ==> r == Err("unsupported node")
    decreases Size(ts), 2
  {
    match NodeKeywordOf(ts)
    case None => Err("unsupported node")
    case Some(k) =>
      SizeFirst(ts);
      NodeBodyOf(k, ts[1..])
  }

  /** The node that keyword `k` starts, read from the tokens after the keyword. */
  function NodeBodyOf(k: NodeKeyword, ts: seq<Token>): (r: Result<Parsed<Node>>)
    ensures r.Ok? ==> Size(r.value.rest) < Size(ts)
    decreases Size(ts), 1
  {
    match k
    case CacheKw => CacheNodeOf(ts)
    case AssignKw => AssignOf(ts)
    case OpKw => OpNodeOf(ts)
    case BranchKw => BranchOf(ts)
    case BarrierKw =>
      var end :- ExpectPunct(ts, Semi);
      Ok(Parsed(Barrier, end))
    case DepKw => DepOf(ts)
    case LoopKw => LoopOf(ts)
    case YieldKw =>
      var vars :- VarsNodeOf(ts, "yield");
      Ok(Parsed(Yield(YieldNode(vars.out)), vars.rest))
    case AwaitKw =>
      var vars :- VarsNodeOf(ts, "await");
      Ok(Parsed(Await(AwaitNode(vars.out)), vars.rest))
    case TransferKw => TransferOf(ts)
    case ReturnKw =>
      var end :- ExpectPunct(ts, Semi);
      Ok(Parsed(Return, end))
  }

  /** `loop name (i in start..end) { body }`. */
  function LoopOf(ts: seq<Token>): (r: Result<Parsed<Node>>)
    ensures r.Ok? ==> Size(r.value.rest) < Size(ts)
    decreases Size(ts), 0
  {
    var name :- ExpectIdent(ts);
    var header :- ExpectGroup(name.rest, Paren);
    var h :- LoopHeaderOf(header.out);
    var body :- ExpectGroup(header.rest, Brace);
    var nodes :- NodeListOf(body.out);
    Ok(Parsed(Loop(LoopNode(name.out, h.index, h.start, h.end, nodes)), body.rest))
  }

  /** The nodes inside braces, read until the braces are empty. */
  function NodeListOf(content: seq<Token>): (r: Result<seq<Node>>)
    ensures r.Ok? ==> (r.value == [] <==> content == [])
    decreases Size(content), 3
  {
    if content == [] then Ok([])
    else
      var node :- NodeOf(content);
      Prepend([node.out], NodeListOf(node.rest))
  }

  /** The node loop of a brace group. */
  method ParseNodes(content0: seq<Token>) returns (r: Result<seq<Node>>)
    ensures r == NodeListOf(content0)
  {
    var content := content0;
    var nodes: seq<Node> := [];
    PrependNothing(NodeListOf(content));
    while content != []
      invariant NodeListOf(content0) == Prepend(nodes, NodeListOf(content))
      decreases Size(content)
    {
      var node := NodeOf(content);
      if node.Err? {
        return Err(node.msg);
      }
      PrependAppend(nodes, [node.value.out], NodeListOf(node.value.rest));
      nodes := nodes + [node.value.out];
      content := node.value.rest;
    }
    PrependDone(nodes);
    return Ok(nodes);
  }

  // ---- printing ----

  /** The token that spells keyword `k`; `loop`, `yield`, `await` and `return` are Rust keywords. */
  function NodeKeywordToken(k: NodeKeyword): Token {
    match k
    case LoopKw => Keyword("loop")
    case YieldKw => Keyword("yield")
    case AwaitKw => Keyword("await")
    case ReturnKw => Keyword("return")
    case _ => Ident(NodeKeywordText(k))
  }

  function CacheOpTokens(op: CacheOp): seq<Token> {
    [Ident("cache"), PunctTok(Dot), Ident(CacheOpText(op))]
  }

  function SettingTokens(s: OpSetting): seq<Token> {
    [Ident(s.name), PunctTok(Eq)] + OpParser.ValueTokens(s.value)
  }

  predicate SettingsPrintable(settings: seq<OpSetting>) {
    forall i :: 0 <= i < |settings| ==> OpParser.ValuePrintable(settings[i].value)
  }

  /** Inputs, then settings, separated by commas. */
  function OpArgListTokens(inputs: seq<VarRef>, settings: seq<OpSetting>): seq<Token>
    decreases |inputs| + |settings|
  {
    if inputs != [] then
      if |inputs| == 1 && settings == [] then VarParser.VarRefTokens(inputs[0])
      else VarParser.VarRefTokens(inputs[0]) + ([PunctTok(Comma)] + OpArgListTokens(inputs[1..], settings))
    else if settings == [] then []
    else if |settings| == 1 then SettingTokens(settings[0])
    else SettingTokens(settings[0]) + ([PunctTok(Comma)] + OpArgListTokens([], settings[1..]))
  }

  function LoopHeaderTokens(h: LoopHeader): seq<Token> {
    [Ident(h.index), Keyword("in")] + RangeParser.RangeTokens(h.start) + [PunctTok(DotDot)]
      + RangeParser.RangeTokens(h.end)
  }

  /** A node the parser can produce. */
  predicate NodePrintable(n: Node)
    decreases n, 0
  {
    match n
    case Op(o) => SettingsPrintable(o.settings)
    case Branch(b) => b.cond.Some? == b.elseBlock.Some?
    case CacheRead(c) => CacheParser.AccessPrintable(c.src)
    case CacheWrite(c) => CacheParser.AccessPrintable(c.dst)
    case CacheReset(c) => CacheParser.AccessPrintable(c.target)
    case Loop(l) => NodesPrintable(l.body)
    case Yield(y) => y.vars != []
    case Await(a) => a.vars != []
    case _ => true
  }

  predicate NodesPrintable(ns: seq<Node>)
    decreases ns, 1
  {
    ns == [] || (NodePrintable(ns[0]) && NodesPrintable(ns[1..]))
  }

  /** The tokens after the keyword, followed by `rest`. */
  function NodeBodyTokens(n: Node, rest: seq<Token>): seq<Token>
    decreases n, 1
  {
    match n
    case Assign(a) => AssignTokens(a, rest)
    case Op(o) => OpTokens(o, rest)
    case Branch(b) => BranchTokens(b, rest)
    case Barrier => [PunctTok(Semi)] + rest
    case Dep(d) => DepTokens(d, rest)
    case CacheRead(c) => CacheReadTokens(c, rest)
    case CacheWrite(c) => CacheWriteTokens(c, rest)
    case CacheInc(c) => CacheStepTokens(IncOp, c.target, c.amount, rest)
    case CacheDec(c) => CacheStepTokens(DecOp, c.target, c.amount, rest)
    case CacheReset(c) => CacheResetTokens(c, rest)
    case Transfer(t) => TransferTokens(t, rest)
    case Loop(l) => LoopTokens(l, rest)
    case Yield(y) => VarsTokens(y.vars, rest)
    case Await(a) => VarsTokens(a.vars, rest)
    case Return => [PunctTok(Semi)] + rest
  }

  function AssignTokens(a: AssignNode, rest: seq<Token>): seq<Token> {
    [Ident(a.name)] + ([PunctTok(Colon)] + ([Ident(a.dtype)]
      + ([Group(Bracket, DimsParser.DimListTokens(a.dims))] + ([PunctTok(Semi)] + rest))))
  }

  function OpTokens(o: OpNode, rest: seq<Token>): seq<Token> {
    [Ident(o.name)] + ([Group(Paren, OpArgListTokens(o.inputs, o.settings))]
      + ([PunctTok(Shr), Ident(o.output), PunctTok(Semi)] + rest))
  }

  function BranchTokens(b: BranchNode, rest: seq<Token>): seq<Token> {
    if b.cond.Some? && b.elseBlock.Some? then
      [Ident(b.cond.value), Ident(b.thenBlock), Ident(b.elseBlock.value), PunctTok(Semi)] + rest
    else [Ident(b.thenBlock), PunctTok(Semi)] + rest
  }

  function DepTokens(d: DepNode, rest: seq<Token>): seq<Token> {
    [Ident("after"), Group(Paren, [Ident(d.after)])]
      + ([Ident("before"), Group(Paren, [Ident(d.before)])] + ([PunctTok(Semi)] + rest))
  }

  function CacheReadTokens(c: CacheReadNode, rest: seq<Token>): seq<Token> {
    [PunctTok(Dot), Ident(CacheOpText(ReadOp))] + (CacheParser.CacheAccessTokens(c.src)
      + ([PunctTok(Shr)] + (VarParser.VarRefTokens(c.dst) + ([PunctTok(Semi)] + rest))))
  }

  function CacheWriteTokens(c: CacheWriteNode, rest: seq<Token>): seq<Token> {
    [PunctTok(Dot), Ident(CacheOpText(WriteOp))] + (VarParser.VarRefTokens(c.src)
      + ([PunctTok(Shr)] + (CacheParser.CacheAccessTokens(c.dst) + ([PunctTok(Semi)] + rest))))
  }

  /** `cache.increment` and `cache.decrement` share their shape. */
  function CacheStepTokens(op: CacheOp, target: string, amount: Int64, rest: seq<Token>): seq<Token> {
    [PunctTok(Dot), Ident(CacheOpText(op))] + (IntTokens(amount) + ([Ident(target), PunctTok(Semi)] + rest))
  }

  function CacheResetTokens(c: CacheResetNode, rest: seq<Token>): seq<Token> {
    [PunctTok(Dot), Ident(CacheOpText(ResetOp))] + (CacheParser.CacheAccessTokens(c.target) + ([PunctTok(Semi)] + rest))
  }

  function LoopTokens(l: LoopNode, rest: seq<Token>): seq<Token>
    decreases Loop(l), 0
  {
    [Ident(l.name)] + ([Group(Paren, LoopHeaderTokens(LoopHeader(l.index, l.start, l.end)))]
      + ([Group(Brace, NodesTokens(l.body))] + rest))
  }

  /** The names of `yield` and `await`, then `;`. */
  function VarsTokens(names: seq<string>, rest: seq<Token>): seq<Token> {
    NameListTokens(names) + [PunctTok(Semi)] + rest
  }

  function TransferTokens(t: TransferNode, rest: seq<Token>): seq<Token> {
    VarParser.VarRefTokens(t.src) + ([PunctTok(Shr)] + (VarParser.VarRefTokens(t.dst) + ([PunctTok(Semi)] + rest)))
  }

  function KeywordOfNode(n: Node): NodeKeyword {
    match n
    case Assign(_) => AssignKw
    case Op(_) => OpKw
    case Branch(_) => BranchKw
    case Barrier => BarrierKw
    case Dep(_) => DepKw
    case CacheRead(_) => CacheKw
    case CacheWrite(_) => CacheKw
    case CacheInc(_) => CacheKw
    case CacheDec(_) => CacheKw
    case CacheReset(_) => CacheKw
    case Transfer(_) => TransferKw
    case Loop(_) => LoopKw
    case Yield(_) => YieldKw
    case Await(_) => AwaitKw
    case Return => ReturnKw
  }

  /** A node as written in a block, followed by `rest`. */
  function NodeTokens(n: Node, rest: seq<Token>): seq<Token>
    decreases n, 2
  {
    [NodeKeywordToken(KeywordOfNode(n))] + NodeBodyTokens(n, rest)
  }

  function NodesTokens(ns: seq<Node>): seq<Token>
    decreases ns, 2
  {
    if ns == [] then [] else NodeTokens(ns[0], NodesTokens(ns[1..]))
  }

  // ---- dispatch facts ----

  /** Each keyword's own spelling selects it. */
  lemma NodeKeywordSpelled(k: NodeKeyword, more: seq<Token>)
    ensures NodeKeywordOf([NodeKeywordToken(k)] + more) == Some(k)
  {
    var ts := [NodeKeywordToken(k)] + more;
    assert ts[0] == NodeKeywordToken(k);
    assert PeekKeyword(ts, NodeKeywordText(k));
  }

  lemma NodeAt(k: NodeKeyword, body: seq<Token>)
    ensures NodeOf([NodeKeywordToken(k)] + body) == NodeBodyOf(k, body)
  {
    NodeKeywordSpelled(k, body);
    assert ([NodeKeywordToken(k)] + body)[1..] == body;
  }

  lemma CacheOpSpelled(op: CacheOp, more: seq<Token>)
    ensures CacheOpOf([Ident(CacheOpText(op))] + more) == Some(op)
  {
    var ts := [Ident(CacheOpText(op))] + more;
    assert ts[0] == Ident(CacheOpText(op));
  }

  // ---- round trips of the node forms ----

  lemma AssignBody(name: string, dtype: string, dims: seq<Dim>, rest: seq<Token>)
    ensures AssignOf([Ident(name)] + ([PunctTok(Colon)] + ([Ident(dtype)]
              + ([Group(Bracket, DimsParser.DimListTokens(dims))] + ([PunctTok(Semi)] + rest)))))
         == Ok(Parsed(Assign(AssignNode(name, dtype, dims)), rest))
  {
    var tail := [PunctTok(Semi)] + rest;
    var afterDtype := [Group(Bracket, DimsParser.DimListTokens(dims))] + tail;
    var afterColon := [Ident(dtype)] + afterDtype;
    var afterName := [PunctTok(Colon)] + afterColon;
    assert ExpectIdent([Ident(name)] + afterName) == Ok(Parsed(name, afterName));
    assert ExpectPunct(afterName, Colon) == Ok(afterColon);
    assert ExpectIdent(afterColon) == Ok(Parsed(dtype, afterDtype));
    DimsParser.DimsRoundTrip(dims, tail);
    assert ExpectPunct(tail, Semi) == Ok(rest);
  }

  lemma AssignRoundTrip(a: AssignNode, rest: seq<Token>)
    ensures AssignOf(AssignTokens(a, rest)) == Ok(Parsed(Assign(a), rest))
  {
    AssignBody(a.name, a.dtype, a.dims, rest);
  }

  /** A printed input is read back as that input when a comma or nothing follows. */
  lemma InputArgRoundTrip(v: VarRef, rest: seq<Token>)
    requires rest == [] || PeekPunct(rest, Comma)
    ensures OpParser.OpArgOf(VarParser.VarRefTokens(v) + rest) == Ok(Parsed(Input(v), rest))
  {
    var ts := VarParser.VarRefTokens(v) + rest;
    if v.indices == [] {
      assert ts[1..] == rest;
    } else {
      var after := [Group(Bracket, VarParser.IndexListTokens(v.indices))] + rest;
      assert ts == [Ident(v.name)] + after;
      assert ts[1..] == after;
      VarParser.IndexedRoundTrip(v.indices, rest);
    }
  }

  lemma SettingArgRoundTrip(s: OpSetting, rest: seq<Token>)
    requires OpParser.ValuePrintable(s.value)
    ensures OpParser.OpArgOf(SettingTokens(s) + rest) == Ok(Parsed(Setting(s), rest))
  {
    var value := OpParser.ValueTokens(s.value) + rest;
    var ts := SettingTokens(s) + rest;
    assert ts == [Ident(s.name), PunctTok(Eq)] + value;
    assert ts[1..][1..] == value;
    OpParser.ValueRoundTrip(s.value, rest);
  }

  /** One input, then the optional comma. */
  lemma InputStep(v: VarRef, rest: seq<Token>)
    requires rest == [] || PeekPunct(rest, Comma)
    ensures OpArgsOf(VarParser.VarRefTokens(v) + rest, false) == Gather([v], [], OpArgsOf(SkipComma(rest), false))
  {
    InputArgRoundTrip(v, rest);
  }

  /** One setting, then the optional comma. */
  lemma SettingStep(s: OpSetting, rest: seq<Token>, seenSetting: bool)
    requires OpParser.ValuePrintable(s.value) && (rest == [] || PeekPunct(rest, Comma))
    ensures OpArgsOf(SettingTokens(s) + rest, seenSetting) == Gather([], [s], OpArgsOf(SkipComma(rest), true))
  {
    SettingArgRoundTrip(s, rest);
  }

  /** Printed settings alone are read back in order. */
  lemma {:induction false} SettingsRoundTrip(settings: seq<OpSetting>, seenSetting: bool)
    requires SettingsPrintable(settings)
    ensures OpArgsOf(OpArgListTokens([], settings), seenSetting) == Ok(OpArgs([], settings))
    decreases |settings|
  {
    if |settings| == 1 {
      var ts := SettingTokens(settings[0]);
      assert OpArgListTokens([], settings) == ts + [];
      SettingStep(settings[0], [], seenSetting);
      GatherDone([], [settings[0]]);
      assert [settings[0]] == settings;
    } else if |settings| > 1 {
      SettingsCons(settings, seenSetting);
      SettingsRoundTrip(settings[1..], true);
      assert [settings[0]] + settings[1..] == settings;
    }
  }

  /** Two or more settings: the first, a comma, then the others. */
  lemma SettingsCons(settings: seq<OpSetting>, seenSetting: bool)
    requires |settings| > 1 && OpParser.ValuePrintable(settings[0].value)
    ensures OpArgsOf(OpArgListTokens([], settings), seenSetting)
         == Gather([], [settings[0]], OpArgsOf(OpArgListTokens([], settings[1..]), true))
  {
    var more := OpArgListTokens([], settings[1..]);
    var tail := [PunctTok(Comma)] + more;
    SettingStep(settings[0], tail, seenSetting);
    assert SkipComma(tail) == more;
  }

  /** Printing inputs then settings and reading them back gives both lists, in order. */
  lemma {:induction false} OpArgsRoundTrip(inputs: seq<VarRef>, settings: seq<OpSetting>)
    requires SettingsPrintable(settings)
    ensures OpArgsOf(OpArgListTokens(inputs, settings), false) == Ok(OpArgs(inputs, settings))
    decreases |inputs|
  {
    if inputs == [] {
      SettingsRoundTrip(settings, false);
    } else if |inputs| == 1 && settings == [] {
      assert OpArgListTokens(inputs, settings) == VarParser.VarRefTokens(inputs[0]) + [];
      InputStep(inputs[0], []);
      GatherDone([inputs[0]], []);
      assert [inputs[0]] == inputs;
    } else {
      var more := OpArgListTokens(inputs[1..], settings);
      var tail := [PunctTok(Comma)] + more;
      assert OpArgListTokens(inputs, settings) == VarParser.VarRefTokens(inputs[0]) + tail;
      InputStep(inputs[0], tail);
      assert SkipComma(tail) == more;
      OpArgsRoundTrip(inputs[1..], settings);
      assert [inputs[0]] + inputs[1..] == inputs;
      assert [] + settings == settings;
    }
  }

  /** `op name(args)` followed by whatever closes the node. */
  lemma OpNodeAt(name: string, argTokens: seq<Token>, args: OpArgs, tail: seq<Token>)
    requires OpArgsOf(argTokens, false) == Ok(args)
    requires OpOutputOf(tail).Ok?
    ensures OpNodeOf([Ident(name)] + ([Group(Paren, argTokens)] + tail))
         == Ok(Parsed(Op(OpNode(name, args.inputs, args.settings, OpOutputOf(tail).value.out)), OpOutputOf(tail).value.rest))
  {
    var afterName := [Group(Paren, argTokens)] + tail;
    assert ExpectIdent([Ident(name)] + afterName) == Ok(Parsed(name, afterName));
    assert ExpectGroup(afterName, Paren) == Ok(Parsed(argTokens, tail));
  }

  lemma OpOutputAt(output: string, rest: seq<Token>)
    ensures OpOutputOf([PunctTok(Shr), Ident(output), PunctTok(Semi)] + rest) == Ok(Parsed(output, rest))
  {
    var tail := [PunctTok(Shr), Ident(output), PunctTok(Semi)] + rest;
    var afterGt := [PunctTok(Gt)] + tail[1..];
    assert ExpectGt(tail) == Ok(afterGt);
    assert afterGt[1..] == tail[1..];
    assert tail[1..] == [Ident(output)] + ([PunctTok(Semi)] + rest);
    assert ExpectIdent(tail[1..]) == Ok(Parsed(output, [PunctTok(Semi)] + rest));
  }

  lemma OpNodeRoundTrip(o: OpNode, rest: seq<Token>)
    requires SettingsPrintable(o.settings)
    ensures OpNodeOf(OpTokens(o, rest)) == Ok(Parsed(Op(o), rest))
  {
    OpArgsRoundTrip(o.inputs, o.settings);
    OpOutputAt(o.output, rest);
    OpNodeAt(o.name, OpArgListTokens(o.inputs, o.settings), OpArgs(o.inputs, o.settings),
      [PunctTok(Shr), Ident(o.output), PunctTok(Semi)] + rest);
  }

  lemma BranchRoundTrip(b: BranchNode, rest: seq<Token>)
    requires b.cond.Some? == b.elseBlock.Some?
    ensures BranchOf(BranchTokens(b, rest)) == Ok(Parsed(Branch(b), rest))
  {
    var ts := BranchTokens(b, rest);
    if b.cond.Some? {
      assert ts[1..] == [Ident(b.thenBlock), Ident(b.elseBlock.value), PunctTok(Semi)] + rest;
      assert ts[1..][1..] == [Ident(b.elseBlock.value), PunctTok(Semi)] + rest;
      assert ts[1..][1..][1..] == [PunctTok(Semi)] + rest;
      assert ts[1..][1..][1..][1..] == rest;
    } else {
      assert ts[1..] == [PunctTok(Semi)] + rest;
      assert ts[1..][1..] == rest;
    }
  }

  lemma DepRoundTrip(d: DepNode, rest: seq<Token>)
    ensures DepOf(DepTokens(d, rest)) == Ok(Parsed(Dep(d), rest))
  {
    var tail := [PunctTok(Semi)] + rest;
    var second := [Ident("before"), Group(Paren, [Ident(d.before)])] + tail;
    var ts := DepTokens(d, rest);
    assert ts[1..][1..] == second;
    assert second[1..][1..] == tail;
    assert [Ident(d.after)][1..] == [] && [Ident(d.before)][1..] == [];
    assert ParenIdentOf(ts[1..]) == Ok(Parsed(d.after, second));
    assert ParenIdentOf(second[1..]) == Ok(Parsed(d.before, tail));
  }

  lemma TransferRoundTrip(t: TransferNode, rest: seq<Token>)
    ensures TransferOf(TransferTokens(t, rest)) == Ok(Parsed(Transfer(t), rest))
  {
    var tail := [PunctTok(Semi)] + rest;
    var middle := [PunctTok(Shr)] + (VarParser.VarRefTokens(t.dst) + tail);
    VarParser.VarRefRoundTrip(t.src, middle);
    assert ExpectPunct(middle, Shr) == Ok(VarParser.VarRefTokens(t.dst) + tail);
    VarParser.VarRefRoundTrip(t.dst, tail);
    assert ExpectPunct(tail, Semi) == Ok(rest);
  }

  /** After `cache.`, the operation's name selects its body. */
  lemma CacheAt(op: CacheOp, body: seq<Token>)
    ensures CacheNodeOf([PunctTok(Dot), Ident(CacheOpText(op))] + body) == CacheBodyOf(op, body)
  {
    var ts := [PunctTok(Dot), Ident(CacheOpText(op))] + body;
    assert ts[1..] == [Ident(CacheOpText(op))] + body;
    assert ts[1..][1..] == body;
    CacheOpSpelled(op, body);
  }

  lemma CacheReadBody(c: CacheReadNode, rest: seq<Token>)
    requires CacheParser.AccessPrintable(c.src)
    ensures CacheReadOf(CacheParser.CacheAccessTokens(c.src)
              + ([PunctTok(Shr)] + (VarParser.VarRefTokens(c.dst) + ([PunctTok(Semi)] + rest))))
         == Ok(Parsed(CacheRead(c), rest))
  {
    var tail := [PunctTok(Semi)] + rest;
    var afterShr := VarParser.VarRefTokens(c.dst) + tail;
    var middle := [PunctTok(Shr)] + afterShr;
    CacheParser.CacheAccessRoundTrip(c.src, middle);
    assert ExpectPunct(middle, Shr) == Ok(afterShr);
    VarParser.VarRefRoundTrip(c.dst, tail);
    assert ExpectPunct(tail, Semi) == Ok(rest);
  }

  lemma CacheReadAt(c: CacheReadNode, rest: seq<Token>, body: seq<Token>)
    requires CacheParser.AccessPrintable(c.src)
    requires body == CacheParser.CacheAccessTokens(c.src)
      + ([PunctTok(Shr)] + (VarParser.VarRefTokens(c.dst) + ([PunctTok(Semi)] + rest)))
    ensures CacheNodeOf([PunctTok(Dot), Ident(CacheOpText(ReadOp))] + body) == Ok(Parsed(CacheRead(c), rest))
  {
    CacheAt(ReadOp, body);
    CacheReadBody(c, rest);
  }

  lemma CacheReadRoundTrip(c: CacheReadNode, rest: seq<Token>)
    requires CacheParser.AccessPrintable(c.src)
    ensures CacheNodeOf(CacheReadTokens(c, rest)) == Ok(Parsed(CacheRead(c), rest))
  {
    CacheReadAt(c, rest, CacheParser.CacheAccessTokens(c.src)
      + ([PunctTok(Shr)] + (VarParser.VarRefTokens(c.dst) + ([PunctTok(Semi)] + rest))));
  }

  lemma CacheWriteBody(c: CacheWriteNode, rest: seq<Token>)
    requires CacheParser.AccessPrintable(c.dst)
    ensures CacheWriteOf(VarParser.VarRefTokens(c.src)
              + ([PunctTok(Shr)] + (CacheParser.CacheAccessTokens(c.dst) + ([PunctTok(Semi)] + rest))))
         == Ok(Parsed(CacheWrite(c), rest))
  {
    var tail := [PunctTok(Semi)] + rest;
    var afterShr := CacheParser.CacheAccessTokens(c.dst) + tail;
    var middle := [PunctTok(Shr)] + afterShr;
    VarParser.VarRefRoundTrip(c.src, middle);
    assert ExpectPunct(middle, Shr) == Ok(afterShr);
    CacheParser.CacheAccessRoundTrip(c.dst, tail);
    assert ExpectPunct(tail, Semi) == Ok(rest);
  }

  lemma CacheWriteAt(c: CacheWriteNode, rest: seq<Token>, body: seq<Token>)
    requires CacheParser.AccessPrintable(c.dst)
    requires body == VarParser.VarRefTokens(c.src)
      + ([PunctTok(Shr)] + (CacheParser.CacheAccessTokens(c.dst) + ([PunctTok(Semi)] + rest)))
    ensures CacheNodeOf([PunctTok(Dot), Ident(CacheOpText(WriteOp))] + body) == Ok(Parsed(CacheWrite(c), rest))
  {
    CacheAt(WriteOp, body);
    CacheWriteBody(c, rest);
  }

  lemma CacheWriteRoundTrip(c: CacheWriteNode, rest: seq<Token>)
    requires CacheParser.AccessPrintable(c.dst)
    ensures CacheNodeOf(CacheWriteTokens(c, rest)) == Ok(Parsed(CacheWrite(c), rest))
  {
    CacheWriteAt(c, rest, VarParser.VarRefTokens(c.src)
      + ([PunctTok(Shr)] + (CacheParser.CacheAccessTokens(c.dst) + ([PunctTok(Semi)] + rest))));
  }

  /** The amount, the target and `;` of `cache.increment` and `cache.decrement`. */
  lemma CacheStepRoundTrip(target: string, amount: Int64, rest: seq<Token>)
    ensures CacheStepOf(IntTokens(amount) + ([Ident(target), PunctTok(Semi)] + rest))
         == Ok(Parsed(CacheIncNode(target, amount), rest))
  {
    var tail := [Ident(target), PunctTok(Semi)] + rest;
    CacheParser.AmountRoundTrip(amount, tail);
    assert tail[1..] == [PunctTok(Semi)] + rest;
    assert tail[1..][1..] == rest;
  }

  lemma CacheIncAt(c: CacheIncNode, rest: seq<Token>, body: seq<Token>)
    requires body == IntTokens(c.amount) + ([Ident(c.target), PunctTok(Semi)] + rest)
    ensures CacheNodeOf([PunctTok(Dot), Ident(CacheOpText(IncOp))] + body) == Ok(Parsed(CacheInc(c), rest))
  {
    CacheAt(IncOp, body);
    CacheStepRoundTrip(c.target, c.amount, rest);
  }

  lemma CacheIncRoundTrip(c: CacheIncNode, rest: seq<Token>)
    ensures CacheNodeOf(CacheStepTokens(IncOp, c.target, c.amount, rest)) == Ok(Parsed(CacheInc(c), rest))
  {
    CacheIncAt(c, rest, IntTokens(c.amount) + ([Ident(c.target), PunctTok(Semi)] + rest));
  }

  lemma CacheDecAt(c: CacheDecNode, rest: seq<Token>, body: seq<Token>)
    requires body == IntTokens(c.amount) + ([Ident(c.target), PunctTok(Semi)] + rest)
    ensures CacheNodeOf([PunctTok(Dot), Ident(CacheOpText(DecOp))] + body) == Ok(Parsed(CacheDec(c), rest))
  {
    CacheAt(DecOp, body);
    CacheStepRoundTrip(c.target, c.amount, rest);
  }

  lemma CacheDecRoundTrip(c: CacheDecNode, rest: seq<Token>)
    ensures CacheNodeOf(CacheStepTokens(DecOp, c.target, c.amount, rest)) == Ok(Parsed(CacheDec(c), rest))
  {
    CacheDecAt(c, rest, IntTokens(c.amount) + ([Ident(c.target), PunctTok(Semi)] + rest));
  }

  lemma CacheResetBody(c: CacheResetNode, rest: seq<Token>)
    requires CacheParser.AccessPrintable(c.target)
    ensures CacheResetOf(CacheParser.CacheAccessTokens(c.target) + ([PunctTok(Semi)] + rest))
         == Ok(Parsed(CacheReset(c), rest))
  {
    var tail := [PunctTok(Semi)] + rest;
    CacheParser.CacheAccessRoundTrip(c.target, tail);
    assert ExpectPunct(tail, Semi) == Ok(rest);
  }

  lemma CacheResetAt(c: CacheResetNode, rest: seq<Token>, body: seq<Token>)
    requires CacheParser.AccessPrintable(c.target)
    requires body == CacheParser.CacheAccessTokens(c.target) + ([PunctTok(Semi)] + rest)
    ensures CacheNodeOf([PunctTok(Dot), Ident(CacheOpText(ResetOp))] + body) == Ok(Parsed(CacheReset(c), rest))
  {
    CacheAt(ResetOp, body);
    CacheResetBody(c, rest);
  }

  lemma CacheResetRoundTrip(c: CacheResetNode, rest: seq<Token>)
    requires CacheParser.AccessPrintable(c.target)
    ensures CacheNodeOf(CacheResetTokens(c, rest)) == Ok(Parsed(CacheReset(c), rest))
  {
    CacheResetAt(c, rest, CacheParser.CacheAccessTokens(c.target) + ([PunctTok(Semi)] + rest));
  }

  /** A printed name list is read back up to the `;` that follows it. */
  lemma {:induction false} NameListRoundTrip(names: seq<string>, rest: seq<Token>)
    requires names != []
    ensures VarListOf(NameListTokens(names) + [PunctTok(Semi)] + rest)
         == Ok(Parsed(names, [PunctTok(Semi)] + rest))
    decreases |names|
  {
    var tail := [PunctTok(Semi)] + rest;
    var ts := NameListTokens(names) + [PunctTok(Semi)] + rest;
    if |names| == 1 {
      assert ts == [Ident(names[0])] + tail;
      assert ts[1..] == tail;
      assert [names[0]] == names;
    } else {
      var more := NameListTokens(names[1..]) + [PunctTok(Semi)] + rest;
      assert ts == [Ident(names[0]), PunctTok(Comma)] + more;
      assert ts[1..][1..] == more;
      NameListRoundTrip(names[1..], rest);
      assert [names[0]] + names[1..] == names;
    }
  }

  lemma VarsRoundTrip(names: seq<string>, keyword: string, rest: seq<Token>)
    requires names != []
    ensures VarsNodeOf(NameListTokens(names) + [PunctTok(Semi)] + rest, keyword) == Ok(Parsed(names, rest))
  {
    NameListRoundTrip(names, rest);
    assert ([PunctTok(Semi)] + rest)[1..] == rest;
  }

  lemma LoopHeaderRoundTrip(h: LoopHeader)
    ensures LoopHeaderOf(LoopHeaderTokens(h)) == Ok(h)
  {
    var endTokens := RangeParser.RangeTokens(h.end);
    var afterStart := [PunctTok(DotDot)] + endTokens;
    var afterIn := RangeParser.RangeTokens(h.start) + afterStart;
    var ts := LoopHeaderTokens(h);
    assert ts == [Ident(h.index), Keyword("in")] + afterIn;
    assert ts[1..][1..] == afterIn;
    RangeParser.RangeRoundTrip(h.start, afterStart);
    assert afterStart[1..] == endTokens;
    RangeParser.RangeRoundTrip(h.end, []);
    assert endTokens + [] == endTokens;
  }

  /** The five cache forms. */
  lemma CacheNodeRoundTrip(n: Node, rest: seq<Token>)
    requires NodePrintable(n) && KeywordOfNode(n) == CacheKw
    ensures CacheNodeOf(NodeBodyTokens(n, rest)) == Ok(Parsed(n, rest))
  {
    match n
    case CacheRead(c) => CacheReadRoundTrip(c, rest);
    case CacheWrite(c) => CacheWriteRoundTrip(c, rest);
    case CacheInc(c) => CacheIncRoundTrip(c, rest);
    case CacheDec(c) => CacheDecRoundTrip(c, rest);
    case CacheReset(c) => CacheResetRoundTrip(c, rest);
  }

  lemma YieldRoundTrip(y: YieldNode, rest: seq<Token>)
    requires y.vars != []
    ensures NodeBodyOf(YieldKw, VarsTokens(y.vars, rest)) == Ok(Parsed(Yield(y), rest))
  {
    VarsRoundTrip(y.vars, "yield", rest);
  }

  lemma AwaitRoundTrip(a: AwaitNode, rest: seq<Token>)
    requires a.vars != []
    ensures NodeBodyOf(AwaitKw, VarsTokens(a.vars, rest)) == Ok(Parsed(Await(a), rest))
  {
    VarsRoundTrip(a.vars, "await", rest);
  }

  /** `barrier;` and `return;`. */
  lemma BareRoundTrip(rest: seq<Token>)
    ensures NodeBodyOf(BarrierKw, [PunctTok(Semi)] + rest) == Ok(Parsed(Barrier, rest))
    ensures NodeBodyOf(ReturnKw, [PunctTok(Semi)] + rest) == Ok(Parsed(Return, rest))
  {
    assert ExpectPunct([PunctTok(Semi)] + rest, Semi) == Ok(rest);
  }

  /** Every straight-line node the parser can produce is read back from its printed body. */
  lemma NodeBodyRoundTrip(n: Node, rest: seq<Token>)
    requires NodePrintable(n) && !n.Loop?
    ensures NodeBodyOf(KeywordOfNode(n), NodeBodyTokens(n, rest)) == Ok(Parsed(n, rest))
  {
    if KeywordOfNode(n) == CacheKw {
      CacheNodeRoundTrip(n, rest);
    } else if n.Barrier? || n.Return? {
      BareRoundTrip(rest);
    } else {
      match n
      case Assign(a) => AssignRoundTrip(a, rest);
      case Op(o) => OpNodeRoundTrip(o, rest);
      case Branch(b) => BranchRoundTrip(b, rest);
      case Dep(d) => DepRoundTrip(d, rest);
      case Transfer(t) => TransferRoundTrip(t, rest);
      case Yield(y) => YieldRoundTrip(y, rest);
      case Await(a) => AwaitRoundTrip(a, rest);
    }
  }

  /** A printed node is read back, whatever follows it. */
  lemma {:induction false} NodeRoundTrip(n: Node, rest: seq<Token>)
    requires NodePrintable(n)
    ensures NodeOf(NodeTokens(n, rest)) == Ok(Parsed(n, rest))
    decreases n, 1
  {
    var k := KeywordOfNode(n);
    var body := NodeBodyTokens(n, rest);
    NodeAt(k, body);
    if n.Loop? {
      LoopRoundTrip(n.loopNode, rest);
      assert NodeBodyOf(k, body) == LoopOf(body);
    } else {
      NodeBodyRoundTrip(n, rest);
    }
  }

  lemma {:induction false} LoopRoundTrip(l: LoopNode, rest: seq<Token>)
    requires NodesPrintable(l.body)
    ensures LoopOf(LoopTokens(l, rest)) == Ok(Parsed(Loop(l), rest))
    decreases Loop(l), 0
  {
    var h := LoopHeader(l.index, l.start, l.end);
    var afterHeader := [Group(Brace, NodesTokens(l.body))] + rest;
    var afterName := [Group(Paren, LoopHeaderTokens(h))] + afterHeader;
    assert ExpectIdent([Ident(l.name)] + afterName) == Ok(Parsed(l.name, afterName));
    assert ExpectGroup(afterName, Paren) == Ok(Parsed(LoopHeaderTokens(h), afterHeader));
    LoopHeaderRoundTrip(h);
    assert ExpectGroup(afterHeader, Brace) == Ok(Parsed(NodesTokens(l.body), rest));
    NodesRoundTrip(l.body);
  }

  /** The nodes of a block are read back from their printed sequence. */
  lemma {:induction false} NodesRoundTrip(ns: seq<Node>)
    requires NodesPrintable(ns)
    ensures NodeListOf(NodesTokens(ns)) == Ok(ns)
    decreases ns, 2
  {
    if ns != [] {
      var more := NodesTokens(ns[1..]);
      NodeRoundTrip(ns[0], more);
      NodesRoundTrip(ns[1..]);
      assert [ns[0]] + ns[1..] == ns;
    }
  }

  // ---- edge cases ----

  /** A name that is no node keyword, e.g. `foo;`, is refused. */
  lemma UnknownNodeRejected(rest: seq<Token>)
    ensures NodeOf([Ident("foo")] + rest) == Err("unsupported node")
  {
    var ts := [Ident("foo")] + rest;
    assert !PeekKeyword(ts, "cache") && !PeekKeyword(ts, "assign") && !PeekKeyword(ts, "op");
    assert !PeekKeyword(ts, "branch") && !PeekKeyword(ts, "barrier") && !PeekKeyword(ts, "dep");
    assert !PeekKeyword(ts, "loop") && !PeekKeyword(ts, "yield") && !PeekKeyword(ts, "await");
    assert !PeekKeyword(ts, "transfer") && !PeekKeyword(ts, "return");
  }

  /** `cache.foo x;` names no cache operation. */
  lemma UnknownCacheOpRejected(rest: seq<Token>)
    ensures CacheNodeOf([PunctTok(Dot), Ident("foo")] + rest) == Err("unsupported cache operation")
  {
    var ts := [Ident("foo")] + rest;
    assert ([PunctTok(Dot)] + ts)[1..] == ts;
    assert !PeekKeyword(ts, "read") && !PeekKeyword(ts, "write") && !PeekKeyword(ts, "increment");
    assert !PeekKeyword(ts, "decrement") && !PeekKeyword(ts, "reset");
  }

  /** An input after a setting, as in `op add(x, alpha=1, y)`, is refused. */
  lemma PositionalAfterSettingRejected(s: OpSetting, v: VarRef, rest: seq<Token>)
    requires OpParser.ValuePrintable(s.value) && (rest == [] || PeekPunct(rest, Comma))
    ensures OpArgsOf(SettingTokens(s) + ([PunctTok(Comma)] + (VarParser.VarRefTokens(v) + rest)), false)
         == Err("positional args must come before settings")
  {
    var after := VarParser.VarRefTokens(v) + rest;
    SettingStep(s, [PunctTok(Comma)] + after, false);
    assert SkipComma([PunctTok(Comma)] + after) == after;
    InputArgRoundTrip(v, rest);
  }

  /** `branch a;` jumps unconditionally; `branch cond ok;` lacks the else block. */
  lemma BranchForms(a: string, b: string, rest: seq<Token>)
    ensures BranchOf([Ident(a), PunctTok(Semi)] + rest) == Ok(Parsed(Branch(BranchNode(None, a, None)), rest))
    ensures BranchOf([Ident(a), Ident(b), PunctTok(Semi)] + rest)
         == Err("branch expects condition and two target blocks")
  {
    assert ([Ident(a), PunctTok(Semi)] + rest)[1..] == [PunctTok(Semi)] + rest;
    assert ([PunctTok(Semi)] + rest)[1..] == rest;
    assert ([Ident(a), Ident(b), PunctTok(Semi)] + rest)[1..] == [Ident(b), PunctTok(Semi)] + rest;
    assert ([Ident(b), PunctTok(Semi)] + rest)[1..] == [PunctTok(Semi)] + rest;
  }

  /** `dep` needs `after` first. */
  lemma DepOrderEnforced(x: string, rest: seq<Token>)
    ensures DepOf([Ident("before"), Group(Paren, [Ident(x)])] + rest) == Err("expected `after`")
  {
  }

  /** A comma before `;` is allowed: `a, ;` lists one name. */
  lemma TrailingCommaList(a: string, rest: seq<Token>)
    ensures VarListOf([Ident(a), PunctTok(Comma), PunctTok(Semi)] + rest)
         == Ok(Parsed([a], [PunctTok(Semi)] + rest))
  {
    var tail := [PunctTok(Semi)] + rest;
    var ts := [Ident(a), PunctTok(Comma)] + tail;
    assert [Ident(a), PunctTok(Comma), PunctTok(Semi)] + rest == ts;
    assert ts[1..][1..] == tail;
    assert VarListOf(tail) == Ok(Parsed([], tail));
    assert [a] + [] == [a];
  }

  /** `cache.increment c;` steps by one. */
  lemma DefaultCacheAmount(target: string, rest: seq<Token>)
    ensures CacheStepOf([Ident(target), PunctTok(Semi)] + rest) == Ok(Parsed(CacheIncNode(target, 1), rest))
  {
    var ts := [Ident(target), PunctTok(Semi)] + rest;
    assert ts[1..][1..] == rest;
  }

  /** A loop range must name its start: `idx in ..3` is refused. */
  lemma OpenLoopStartRejected(idx: string, limit: LitInt)
    ensures LoopHeaderOf([Ident(idx), Keyword("in"), PunctTok(DotDot), IntTok(limit)])
         == Err("expected identifier or integer for loop range")
  {
    var ts := [Ident(idx), Keyword("in"), PunctTok(DotDot), IntTok(limit)];
    assert ts[1..][1..] == [PunctTok(DotDot), IntTok(limit)];
  }
}
