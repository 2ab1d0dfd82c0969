/** The top level of the DSL: memory sections of variable declarations and blocks of nodes
    (src/parsers/sections.rs). */
module SectionsParser {
  import opened Results
  import opened Tokens
  import opened Ast
  import DimsParser
  import Attributes
  import NodeParser

  // ---- memory kinds ----

  function MemoryKindText(k: MemoryKind): string {
    match k
    case Dynamic => "dynamic"
    case Volatile => "volatile"
    case Constant => "constant"
    case Persistent => "persistent"
  }

  /** The memory kind whose keyword starts `ts`, checked in the order dynamic, volatile,
      constant, persistent. */
  function MemoryKindOf(ts: seq<Token>): (r: Option<MemoryKind>)
    ensures r.Some? ==> PeekKeyword(ts, MemoryKindText(r.value))
  {
    if PeekKeyword(ts, "dynamic") then Some(Dynamic)
    else if PeekKeyword(ts, "volatile") then Some(Volatile)
    else if PeekKeyword(ts, "constant") then Some(Constant)
    else if PeekKeyword(ts, "persistent") then Some(Persistent)
    else None
  }

  lemma MemoryKindSpelled(k: MemoryKind, more: seq<Token>)
    ensures MemoryKindOf([Ident(MemoryKindText(k))] + more) == Some(k)
  {
  }

  // ---- declarations ----

  /** The binder loop of a declaration. */
  method ParseBinderList(content0: seq<Token>) returns (r: Result<seq<string>>)
    ensures r == NameListOf(content0)
  {
    var content := content0;
    var names: seq<string> := [];
    PrependNothing(NameListOf(content));
    while content != []
      invariant NameListOf(content0) == Prepend(names, NameListOf(content))
      decreases Size(content)
    {
      var name := ExpectIdent(content);
      if name.Err? {
        return Err(name.msg);
      }
      var next := SkipComma(name.value.rest);
      PrependAppend(names, [name.value.out], NameListOf(next));
      names := names + [name.value.out];
      content := next;
    }
    PrependDone(names);
    return Ok(names);
  }

  /** The optional `(i, j)` after a declared name; an empty pair of parentheses is refused. */
  function BindersOf(ts: seq<Token>): (r: Result<Parsed<seq<string>>>)
    ensures r.Ok? ==> Size(r.value.rest) <= Size(ts)
    ensures !PeekGroup(ts, Paren) ==> r == Ok(Parsed([], ts))
    ensures PeekGroup(ts, Paren) && r.Ok? ==> r.value.out != [] && r.value.rest == ts[1..]
    ensures PeekGroup(ts, Paren) && ts[0].inner == [] ==> r == Err("prefix table must declare at least one index")
  {
    if PeekGroup(ts, Paren) then
      SizeFirst(ts);
      var names :- NameListOf(ts[0].inner);
      if names == [] then Err("prefix table must declare at least one index")
      else Ok(Parsed(names, ts[1..]))
    else Ok(Parsed([], ts))
  }

  /** A declaration together with the attributes that follow its shape. */
  function Declare(name: string, binders: seq<string>, dtype: string, dims: seq<Dim>,
                   a: Attributes.ParsedAttrs): (d: VarDecl)
    ensures d.name == name && d.tableIndices == binders && d.dtype == dtype && d.dims == dims
    ensures d.init == a.init && d.refName == a.refName && d.pattern == a.pattern
    ensures d.table == a.table && d.autoDim == a.autoDim && d.fixed == a.fixed
  {
    VarDecl(name, dtype, dims, a.init, a.refName, a.pattern, binders, a.table, a.autoDim, a.fixed)
  }

  /** The attribute fields of a declaration. */
  function AttrsOfDecl(d: VarDecl): Attributes.ParsedAttrs {
    Attributes.ParsedAttrs(d.init, d.refName, d.pattern, d.table, d.autoDim, d.fixed)
  }

  /** `name(i, j): dtype[dims] @attrs;`, binders and shape optional. */
  function VarDeclOf(ts: seq<Token>): (r: Result<Parsed<VarDecl>>)
    ensures r.Ok? ==> Size(r.value.rest) < Size(ts)
  {
    var name :- ExpectIdent(ts);
    var binders :- BindersOf(name.rest);
    var afterColon :- ExpectPunct(binders.rest, Colon);
    var dtype :- ExpectIdent(afterColon);
    DeclTailOf(name.out, binders.out, dtype.out, dtype.rest)
  }

  /** The shape, the attributes and the `;` after a declaration's dtype. */
  function DeclTailOf(name: string, binders: seq<string>, dtype: string, ts: seq<Token>): (r: Result<Parsed<VarDecl>>)
    ensures r.Ok? ==> Size(r.value.rest) < Size(ts)
    ensures r.Ok? ==> r.value.out.name == name && r.value.out.tableIndices == binders && r.value.out.dtype == dtype
  {
    var dims :- DimsParser.DimsOf(ts);
    var attrs :- Attributes.AttrsOf(dims.rest, Attributes.NoAttrs);
    var end :- ExpectPunct(attrs.rest, Semi);
    Ok(Parsed(Declare(name, binders, dtype, dims.out, attrs.out), end))
  }

  /** The declarations inside a memory section's braces. */
  function VarDeclListOf(content: seq<Token>): (r: Result<seq<VarDecl>>)
    ensures r.Ok? ==> (r.value == [] <==> content == [])
    decreases Size(content)
  {
    if content == [] then Ok([])
    else
      var d :- VarDeclOf(content);
      Prepend([d.out], VarDeclListOf(d.rest))
  }

  /** The declaration loop of a memory section. */
  method ParseVarDecls(content0: seq<Token>) returns (r: Result<seq<VarDecl>>)
    ensures r == VarDeclListOf(content0)
  {
    var content := content0;
    var vars: seq<VarDecl> := [];
    PrependNothing(VarDeclListOf(content));
    while content != []
      invariant VarDeclListOf(content0) == Prepend(vars, VarDeclListOf(content))
      decreases Size(content)
    {
      var d := VarDeclOf(content);
      if d.Err? {
        return Err(d.msg);
      }
      PrependAppend(vars, [d.value.out], VarDeclListOf(d.value.rest));
      vars := vars + [d.value.out];
      content := d.value.rest;
    }
    PrependDone(vars);
    return Ok(vars);
  }

  // ---- sections ----

  /** The kind keyword. When none of the four is present the parser falls back to demanding
      `persistent`, which then cannot be there, so that fallback always fails. */
  function MemoryKeywordOf(ts: seq<Token>): (r: Result<Parsed<MemoryKind>>)
    ensures r.Ok? ==> |ts| > 0 && r.value.rest == ts[1..] && MemoryKindOf(ts) == Some(r.value.out)
    ensures MemoryKindOf(ts).Some? ==> r.Ok?
    ensures MemoryKindOf(ts).None? ==> r == Err("expected `persistent`")
  {
    match MemoryKindOf(ts)
    case Some(k) => Ok(Parsed(k, ts[1..]))
    case None => Err("expected `persistent`")
  }

  /** `dynamic { ... }` and the other three kinds. */
  function MemorySectionOf(ts: seq<Token>): (r: Result<Parsed<MemorySection>>)
    ensures r.Ok? ==> Size(r.value.rest) < Size(ts) && MemoryKindOf(ts) == Some(r.value.out.kind)
  {
    var kind :- MemoryKeywordOf(ts);
    SizeFirst(ts);
    var body :- ExpectGroup(kind.rest, Brace);
    var vars :- VarDeclListOf(body.out);
    Ok(Parsed(MemorySection(kind.out, vars), body.rest))
  }

  /** `block name { nodes }`. */
  function BlockSectionOf(ts: seq<Token>): (r: Result<Parsed<BlockSection>>)
    ensures r.Ok? ==> Size(r.value.rest) < Size(ts) && PeekKeyword(ts, "block")
  {
    var afterKw :- ExpectKeyword(ts, "block");
    var name :- ExpectIdent(afterKw);
    var body :- ExpectGroup(name.rest, Brace);
    var nodes :- NodeParser.NodeListOf(body.out);
    Ok(Parsed(BlockSection(name.out, nodes), body.rest))
  }

  /** One section, chosen by its keyword. */
  function SectionOf(ts: seq<Token>): (r: Result<Parsed<Section>>)
    ensures r.Ok? ==> Size(r.value.rest) < Size(ts)
    ensures MemoryKindOf(ts).None? && !PeekKeyword(ts, "block") ==> r == Err("expected memory section or block")
  {
    if MemoryKindOf(ts).Some? then
      var m :- MemorySectionOf(ts);
      Ok(Parsed(Memory(m.out), m.rest))
    else if PeekKeyword(ts, "block") then
      var b :- BlockSectionOf(ts);
      Ok(Parsed(Block(b.out), b.rest))
    else Err("expected memory section or block")
  }

  /** The sections of a whole graph, in source order. */
  function SectionsOf(ts: seq<Token>): (r: Result<seq<Section>>)
    ensures ts == [] ==> r == Ok([])
    ensures r.Ok? ==> (r.value == [] <==> ts == [])
    decreases Size(ts)
  {
    if ts == [] then Ok([])
    else
      var s :- SectionOf(ts);
      Prepend([s.out], SectionsOf(s.rest))
  }

  /** `GraphDsl::parse`: the section loop over the whole input. */
  method ParseGraph(ts0: seq<Token>) returns (r: Result<GraphDsl>)
    ensures r.Ok? <==> SectionsOf(ts0).Ok?
    ensures r.Ok? ==> r.value == GraphDsl(SectionsOf(ts0).value)
    ensures r.Err? ==> r.msg == SectionsOf(ts0).msg
  {
    var ts := ts0;
    var sections: seq<Section> := [];
    PrependNothing(SectionsOf(ts));
    while ts != []
      invariant SectionsOf(ts0) == Prepend(sections, SectionsOf(ts))
      decreases Size(ts)
    {
      var s := SectionOf(ts);
      if s.Err? {
        return Err(s.msg);
      }
      PrependAppend(sections, [s.value.out], SectionsOf(s.value.rest));
      sections := sections + [s.value.out];
      ts := s.value.rest;
    }
    PrependDone(sections);
    return Ok(GraphDsl(sections));
  }

  // ---- printing, and the round trip ----

  function BindersTokens(names: seq<string>): seq<Token> {
    if names == [] then [] else [Group(Paren, NameListTokens(names))]
  }

  function ShapeTokens(dims: seq<Dim>): seq<Token> {
    if dims == [] then [] else [Group(Bracket, DimsParser.DimListTokens(dims))]
  }

  /** A declaration with every optional part it has, each attribute once, printed in front
      of the tokens `rest`. */
  function VarDeclTokens(d: VarDecl, rest: seq<Token>): seq<Token> {
    [Ident(d.name)] + (BindersTokens(d.tableIndices) + ([PunctTok(Colon)] + ([Ident(d.dtype)]
      + (ShapeTokens(d.dims) + (Attributes.AttrsTokens(AttrsOfDecl(d)) + ([PunctTok(Semi)] + rest))))))
  }

  function VarDeclsTokens(vs: seq<VarDecl>): seq<Token> {
    if vs == [] then [] else VarDeclTokens(vs[0], VarDeclsTokens(vs[1..]))
  }

  /** A section as written, followed by `rest`. */
  function SectionTokens(s: Section, rest: seq<Token>): seq<Token> {
    match s
    case Memory(m) => [Ident(MemoryKindText(m.kind))] + ([Group(Brace, VarDeclsTokens(m.vars))] + rest)
    case Block(b) => [Ident("block")] + ([Ident(b.name)] + ([Group(Brace, NodeParser.NodesTokens(b.nodes))] + rest))
  }

  predicate SectionPrintable(s: Section) {
    match s
    case Memory(_) => true
    case Block(b) => NodeParser.NodesPrintable(b.nodes)
  }

  function SectionsTokens(ss: seq<Section>): seq<Token> {
    if ss == [] then [] else SectionTokens(ss[0], SectionsTokens(ss[1..]))
  }

  predicate SectionsPrintable(ss: seq<Section>) {
    forall i :: 0 <= i < |ss| ==> SectionPrintable(ss[i])
  }

  lemma BindersRoundTrip(names: seq<string>, rest: seq<Token>)
    requires names == [] ==> !PeekGroup(rest, Paren)
    ensures BindersOf(BindersTokens(names) + rest) == Ok(Parsed(names, rest))
  {
    if names != [] {
      NamesRoundTrip(names);
      assert (BindersTokens(names) + rest)[1..] == rest;
    } else {
      assert BindersTokens(names) + rest == rest;
    }
  }

  /** The printed attributes start with `@` or are absent. */
  lemma AttrsTokensStart(a: Attributes.ParsedAttrs)
    ensures Attributes.AttrsTokens(a) == [] || Attributes.AttrsTokens(a)[0] == PunctTok(At)
  {
  }

  lemma ShapeRoundTrip(dims: seq<Dim>, rest: seq<Token>)
    requires dims == [] ==> !PeekGroup(rest, Bracket)
    ensures DimsParser.DimsOf(ShapeTokens(dims) + rest) == Ok(Parsed(dims, rest))
  {
    if dims != [] {
      DimsParser.DimsRoundTrip(dims, rest);
    } else {
      assert ShapeTokens(dims) + rest == rest;
    }
  }

  /** Shape, attributes and `;` after the dtype. */
  lemma DeclTailRoundTrip(d: VarDecl, rest: seq<Token>)
    ensures DeclTailOf(d.name, d.tableIndices, d.dtype,
              ShapeTokens(d.dims) + (Attributes.AttrsTokens(AttrsOfDecl(d)) + ([PunctTok(Semi)] + rest)))
         == Ok(Parsed(d, rest))
  {
    var tail := [PunctTok(Semi)] + rest;
    var attrs := Attributes.AttrsTokens(AttrsOfDecl(d)) + tail;
    AttrsTokensStart(AttrsOfDecl(d));
    if Attributes.AttrsTokens(AttrsOfDecl(d)) == [] {
      assert attrs == tail;
    } else {
      assert attrs[0] == PunctTok(At);
    }
    ShapeRoundTrip(d.dims, attrs);
    Attributes.AttrsRoundTrip(AttrsOfDecl(d), tail);
    assert ExpectPunct(tail, Semi) == Ok(rest);
    assert Declare(d.name, d.tableIndices, d.dtype, d.dims, AttrsOfDecl(d)) == d;
  }

  lemma VarDeclRoundTrip(d: VarDecl, rest: seq<Token>)
    ensures VarDeclOf(VarDeclTokens(d, rest)) == Ok(Parsed(d, rest))
  {
    var afterDtype := ShapeTokens(d.dims) + (Attributes.AttrsTokens(AttrsOfDecl(d)) + ([PunctTok(Semi)] + rest));
    var afterColon := [Ident(d.dtype)] + afterDtype;
    var afterBinders := [PunctTok(Colon)] + afterColon;
    var afterName := BindersTokens(d.tableIndices) + afterBinders;
    assert ExpectIdent([Ident(d.name)] + afterName) == Ok(Parsed(d.name, afterName));
    BindersRoundTrip(d.tableIndices, afterBinders);
    assert ExpectPunct(afterBinders, Colon) == Ok(afterColon);
    assert ExpectIdent(afterColon) == Ok(Parsed(d.dtype, afterDtype));
    DeclTailRoundTrip(d, rest);
  }

  lemma {:induction false} VarDeclsRoundTrip(vs: seq<VarDecl>)
    ensures VarDeclListOf(VarDeclsTokens(vs)) == Ok(vs)
    decreases |vs|
  {
    if vs != [] {
      var more := VarDeclsTokens(vs[1..]);
      VarDeclRoundTrip(vs[0], more);
      VarDeclListStep(VarDeclTokens(vs[0], more), vs[0], more);
      VarDeclsRoundTrip(vs[1..]);
      assert [vs[0]] + vs[1..] == vs;
    }
  }

  /** One step of the declaration loop. */
  lemma VarDeclListStep(content: seq<Token>, d: VarDecl, after: seq<Token>)
    requires VarDeclOf(content) == Ok(Parsed(d, after))
    ensures VarDeclListOf(content) == Prepend([d], VarDeclListOf(after))
  {
  }

  lemma MemorySectionRoundTrip(m: MemorySection, rest: seq<Token>)
    ensures MemorySectionOf(SectionTokens(Memory(m), rest)) == Ok(Parsed(m, rest))
  {
    var afterKw := [Group(Brace, VarDeclsTokens(m.vars))] + rest;
    var ts := SectionTokens(Memory(m), rest);
    MemoryKindSpelled(m.kind, afterKw);
    assert MemoryKeywordOf(ts) == Ok(Parsed(m.kind, afterKw));
    assert ExpectGroup(afterKw, Brace) == Ok(Parsed(VarDeclsTokens(m.vars), rest));
    VarDeclsRoundTrip(m.vars);
  }

  lemma BlockSectionRoundTrip(b: BlockSection, rest: seq<Token>)
    requires NodeParser.NodesPrintable(b.nodes)
    ensures BlockSectionOf(SectionTokens(Block(b), rest)) == Ok(Parsed(b, rest))
  {
    var afterName := [Group(Brace, NodeParser.NodesTokens(b.nodes))] + rest;
    var afterKw := [Ident(b.name)] + afterName;
    var ts := SectionTokens(Block(b), rest);
    assert ExpectKeyword(ts, "block") == Ok(afterKw);
    assert ExpectIdent(afterKw) == Ok(Parsed(b.name, afterName));
    assert ExpectGroup(afterName, Brace) == Ok(Parsed(NodeParser.NodesTokens(b.nodes), rest));
    NodeParser.NodesRoundTrip(b.nodes);
  }

  /** A printed section is read back, whatever follows it. */
  lemma SectionRoundTrip(s: Section, rest: seq<Token>)
    requires SectionPrintable(s)
    ensures SectionOf(SectionTokens(s, rest)) == Ok(Parsed(s, rest))
  {
    var ts := SectionTokens(s, rest);
    match s
    case Memory(m) =>
      MemoryKindSpelled(m.kind, [Group(Brace, VarDeclsTokens(m.vars))] + rest);
      MemorySectionRoundTrip(m, rest);
    case Block(b) =>
      assert ts[0] == Ident("block");
      assert MemoryKindOf(ts).None?;
      BlockSectionRoundTrip(b, rest);
  }

  /** A printed graph is read back section by section. */
  lemma {:induction false} SectionsRoundTrip(ss: seq<Section>)
    requires SectionsPrintable(ss)
    ensures SectionsOf(SectionsTokens(ss)) == Ok(ss)
    decreases |ss|
  {
    if ss != [] {
      var more := SectionsTokens(ss[1..]);
      assert SectionPrintable(ss[0]);
      SectionRoundTrip(ss[0], more);
      SectionsStep(SectionTokens(ss[0], more), ss[0], more);
      SectionsRoundTrip(ss[1..]);
      assert [ss[0]] + ss[1..] == ss;
    }
  }

  /** One step of the section loop. */
  lemma SectionsStep(ts: seq<Token>, s: Section, after: seq<Token>)
    requires SectionOf(ts) == Ok(Parsed(s, after))
    ensures SectionsOf(ts) == Prepend([s], SectionsOf(after))
  {
  }

  // ---- edge cases ----

  /** Anything other than the four memory keywords and `block`, e.g. `foo { }`, is refused. */
  lemma UnknownSectionRejected(rest: seq<Token>)
    ensures SectionsOf([Ident("foo")] + rest) == Err("expected memory section or block")
  {
    var ts := [Ident("foo")] + rest;
    assert MemoryKindOf(ts).None? && !PeekKeyword(ts, "block");
  }

  /** `x(): f32;` declares no binder and is refused. */
  lemma EmptyBindersRejected(name: string, rest: seq<Token>)
    ensures VarDeclOf([Ident(name), Group(Paren, [])] + rest) == Err("prefix table must declare at least one index")
  {
    assert ([Ident(name), Group(Paren, [])] + rest)[1..] == [Group(Paren, [])] + rest;
  }

  /** Commas between binders are optional: `(i j)` binds both. */
  lemma BindersWithoutCommas(i: string, j: string)
    ensures NameListOf([Ident(i), Ident(j)]) == Ok([i, j])
  {
    assert [Ident(i), Ident(j)][1..] == [Ident(j)];
    assert [Ident(j)][1..] == [];
    assert SkipComma([Ident(j)]) == [Ident(j)];
    assert SkipComma([]) == [];
    assert [j] + [] == [j];
    assert NameListOf([Ident(j)]) == Ok([j]);
    assert [i] + [j] == [i, j];
  }
}
