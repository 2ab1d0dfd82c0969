/** Variable references with optional prefix indices: `x`, `w[i, 3]` (src/parsers/var.rs). */
module VarParser {
  import opened Results
  import opened Tokens
  import opened Ast

  /** One index: an integer literal, otherwise an identifier. */
  function IndexEntry(content: seq<Token>): (r: Result<Parsed<IndexExpr>>)
    ensures r.Ok? ==> Size(r.value.rest) < Size(content)
    ensures r.Ok? <==> PeekLitInt(content) || PeekIdent(content)
  {
    if PeekLitInt(content) then
      var lit := TakeLitInt(content);
      Ok(Parsed(IndexLit(lit.out), lit.rest))
    else
      var id :- ExpectIdent(content);
      Ok(Parsed(IndexIdent(id.out), id.rest))
  }

  /** The bracket content read entry by entry; a comma after an entry is optional. */
  function IndexListOf(content: seq<Token>): (r: Result<seq<IndexExpr>>)
    ensures r.Ok? ==> (r.value == [] <==> content == [])
    decreases Size(content)
  {
    if content == [] then Ok([])
    else
      var entry :- IndexEntry(content);
      Prepend([entry.out], IndexListOf(SkipComma(entry.rest)))
  }

  /** What `parse_indices` reads: a `[...]` group holding at least one index. */
  function IndicesOf(ts: seq<Token>): (r: Result<Parsed<seq<IndexExpr>>>)
    ensures r.Ok? ==> |r.value.out| > 0
    ensures r.Ok? <==> PeekGroup(ts, Bracket) && ts[0].inner != [] && IndexListOf(ts[0].inner).Ok?
    ensures r.Ok? ==> r.value == Parsed(IndexListOf(ts[0].inner).value, ts[1..])
    ensures PeekGroup(ts, Bracket) && ts[0].inner == [] ==> r == Err("prefix access must include at least one index")
  {
    var group :- ExpectGroup(ts, Bracket);
    var indices :- IndexListOf(group.out);
    if indices == [] then Err("prefix access must include at least one index")
    else Ok(Parsed(indices, group.rest))
  }

  /** `parse_indices`. */
  method ParseIndices(ts: seq<Token>) returns (r: Result<Parsed<seq<IndexExpr>>>)
    ensures r == IndicesOf(ts)
  {
    if !PeekGroup(ts, Bracket) {
      return Err("expected square brackets");
    }
    var content := ts[0].inner;
    var indices: seq<IndexExpr> := [];
    PrependNothing(IndexListOf(content));
    while content != []
      invariant IndexListOf(ts[0].inner) == Prepend(indices, IndexListOf(content))
      decreases Size(content)
    {
      var entry := IndexEntry(content);
      if entry.Err? {
        return Err(entry.msg);
      }
      PrependAppend(indices, [entry.value.out], IndexListOf(SkipComma(entry.value.rest)));
      indices := indices + [entry.value.out];
      content := SkipComma(entry.value.rest);
    }
    PrependDone(indices);
    if indices == [] {
      return Err("prefix access must include at least one index");
    }
    return Ok(Parsed(indices, ts[1..]));
  }

  /** `parse_var_ref`: a name, then indices only when a `[` group follows. */
  function ParseVarRef(ts: seq<Token>): (r: Result<Parsed<VarRef>>)
    ensures r.Ok? ==> Size(r.value.rest) < Size(ts)
    ensures r.Ok? ==> PeekIdent(ts) && r.value.out.name == ts[0].name
    ensures r.Ok? ==> (r.value.out.indices == [] <==> !PeekGroup(ts[1..], Bracket))
    ensures PeekIdent(ts) && !PeekGroup(ts[1..], Bracket) ==> r == Ok(Parsed(VarRef(ts[0].name, []), ts[1..]))
  {
    var name :- ExpectIdent(ts);
    if PeekGroup(name.rest, Bracket) then
      var indices :- IndicesOf(name.rest);
      Ok(Parsed(VarRef(name.out, indices.out), indices.rest))
    else
      Ok(Parsed(VarRef(name.out, []), name.rest))
  }

  // ---- printing, and the round trip ----

  function IndexTokens(x: IndexExpr): seq<Token> {
    match x
    case IndexIdent(n) => [Ident(n)]
    case IndexLit(l) => LitTokens(l)
  }

  function IndexListTokens(xs: seq<IndexExpr>): seq<Token> {
    if xs == [] then []
    else if |xs| == 1 then IndexTokens(xs[0])
    else IndexTokens(xs[0]) + [PunctTok(Comma)] + IndexListTokens(xs[1..])
  }

  /** `name` or `name[i,j]`. */
  function VarRefTokens(v: VarRef): seq<Token> {
    if v.indices == [] then [Ident(v.name)]
    else [Ident(v.name), Group(Bracket, IndexListTokens(v.indices))]
  }

  lemma IndexEntryRoundTrip(x: IndexExpr, rest: seq<Token>)
    ensures IndexEntry(IndexTokens(x) + rest) == Ok(Parsed(x, rest))
  {
    match x
    case IndexIdent(n) =>
      assert (IndexTokens(x) + rest)[1..] == rest;
    case IndexLit(l) =>
      LitRoundTrip(l, rest);
  }

  lemma {:induction false} IndexListRoundTrip(xs: seq<IndexExpr>)
    ensures IndexListOf(IndexListTokens(xs)) == Ok(xs)
    decreases |xs|
  {
    if |xs| == 1 {
      IndexEntryRoundTrip(xs[0], []);
      assert IndexTokens(xs[0]) + [] == IndexListTokens(xs);
      PrependDone([xs[0]]);
      assert [xs[0]] == xs;
    } else if |xs| > 1 {
      var rest := [PunctTok(Comma)] + IndexListTokens(xs[1..]);
      IndexEntryRoundTrip(xs[0], rest);
      assert IndexTokens(xs[0]) + rest == IndexListTokens(xs);
      assert rest[1..] == IndexListTokens(xs[1..]);
      IndexListRoundTrip(xs[1..]);
      assert [xs[0]] + xs[1..] == xs;
    }
  }

  /** Printing a reference and reading it back gives the same reference, provided
      an unindexed name is not followed by a `[` group it would swallow. */
  lemma VarRefRoundTrip(v: VarRef, rest: seq<Token>)
    requires v.indices == [] ==> !PeekGroup(rest, Bracket)
    ensures ParseVarRef(VarRefTokens(v) + rest) == Ok(Parsed(v, rest))
  {
    var ts := VarRefTokens(v) + rest;
    if v.indices == [] {
      assert ts[1..] == rest;
    } else {
      var after := [Group(Bracket, IndexListTokens(v.indices))] + rest;
      assert ts == [Ident(v.name)] + after;
      assert ts[1..] == after;
      IndexedRoundTrip(v.indices, rest);
    }
  }

  lemma IndexedRoundTrip(xs: seq<IndexExpr>, rest: seq<Token>)
    requires xs != []
    ensures IndicesOf([Group(Bracket, IndexListTokens(xs))] + rest) == Ok(Parsed(xs, rest))
  {
    IndexListRoundTrip(xs);
    assert ([Group(Bracket, IndexListTokens(xs))] + rest)[1..] == rest;
  }

  // ---- edge cases ----

  /** `x[]` is refused; `x[i,]` keeps one index. */
  lemma EmptyAndTrailingComma()
    ensures IndicesOf([Group(Bracket, [])]) == Err("prefix access must include at least one index")
    ensures IndexListOf([Ident("i"), PunctTok(Comma)]) == Ok([IndexIdent("i")])
  {
    var ts := [Ident("i"), PunctTok(Comma)];
    assert ts[1..][1..] == [];
    PrependDone([IndexIdent("i")]);
  }
}
