/** Shape lists after a dtype: `[B, 3, B*D, 2*N]` (src/parsers/dims.rs). */
module DimsParser {
  import opened Results
  import opened Tokens
  import opened Ast

  /** `parse_dim_atom`: the operand to the right of `*`. */
  function ParseDimAtom(ts: seq<Token>): (r: Result<Parsed<DimAtom>>)
    ensures r.Ok? <==> PeekLitInt(ts) || PeekIdent(ts)
    ensures r.Ok? ==> Size(r.value.rest) < Size(ts)
    ensures PeekIdent(ts) ==> r == Ok(Parsed(AtomIdent(ts[0].name), ts[1..]))
    ensures r.Err? ==> r.msg == "expected identifier or integer for dimension expression"
  {
    if PeekLitInt(ts) then
      var lit := TakeLitInt(ts);
      Ok(Parsed(AtomLit(lit.out), lit.rest))
    else if PeekIdent(ts) then
      Ok(Parsed(AtomIdent(ts[0].name), ts[1..]))
    else
      Err("expected identifier or integer for dimension expression")
  }

  /** One list entry: a literal or an identifier, optionally followed by `*` and one atom. */
  function DimEntry(content: seq<Token>): (r: Result<Parsed<Dim>>)
    ensures r.Ok? ==> Size(r.value.rest) < Size(content)
  {
    if PeekLitInt(content) then
      var lit := TakeLitInt(content);
      if PeekPunct(lit.rest, Star) then
        var right :- ParseDimAtom(lit.rest[1..]);
        Ok(Parsed(DimMul(AtomLit(lit.out), right.out), right.rest))
      else
        Ok(Parsed(DimLit(lit.out), lit.rest))
    else
      var id :- ExpectIdent(content);
      if PeekPunct(id.rest, Star) then
        var right :- ParseDimAtom(id.rest[1..]);
        Ok(Parsed(DimMul(AtomIdent(id.out), right.out), right.rest))
      else
        Ok(Parsed(DimIdent(id.out), id.rest))
  }

  /** The bracket content read entry by entry; a comma after an entry is optional. */
  function DimListOf(content: seq<Token>): Result<seq<Dim>>
    decreases Size(content)
  {
    if content == [] then Ok([])
    else
      var entry :- DimEntry(content);
      Prepend([entry.out], DimListOf(SkipComma(entry.rest)))
  }

  /** What `parse_dims` reads: nothing when no `[` group follows. */
  function DimsOf(ts: seq<Token>): (r: Result<Parsed<seq<Dim>>>)
    ensures !PeekGroup(ts, Bracket) ==> r == Ok(Parsed([], ts))
    ensures r.Ok? ==> Size(r.value.rest) <= Size(ts)
    ensures r.Ok? && PeekGroup(ts, Bracket) ==> r.value.rest == ts[1..] && Size(r.value.rest) < Size(ts)
  {
    if PeekGroup(ts, Bracket) then
      var dims :- DimListOf(ts[0].inner);
      Ok(Parsed(dims, ts[1..]))
    else
      Ok(Parsed([], ts))
  }

  /** `parse_dims`. */
  method ParseDims(ts: seq<Token>) returns (r: Result<Parsed<seq<Dim>>>)
    ensures r == DimsOf(ts)
  {
    if !PeekGroup(ts, Bracket) {
      return Ok(Parsed([], ts));
    }
    var content := ts[0].inner;
    var dims: seq<Dim> := [];
    PrependNothing(DimListOf(content));
    while content != []
      invariant DimListOf(ts[0].inner) == Prepend(dims, DimListOf(content))
      decreases Size(content)
    {
      var entry := DimEntry(content);
      if entry.Err? {
        return Err(entry.msg);
      }
      PrependAppend(dims, [entry.value.out], DimListOf(SkipComma(entry.value.rest)));
      dims := dims + [entry.value.out];
      content := SkipComma(entry.value.rest);
    }
    PrependDone(dims);
    return Ok(Parsed(dims, ts[1..]));
  }

  // ---- printing, and the round trip ----

  function AtomTokens(a: DimAtom): seq<Token> {
    match a
    case AtomIdent(n) => [Ident(n)]
    case AtomLit(l) => LitTokens(l)
  }

  function DimTokens(d: Dim): seq<Token> {
    match d
    case DimIdent(n) => [Ident(n)]
    case DimLit(l) => LitTokens(l)
    case DimMul(l, r) => AtomTokens(l) + [PunctTok(Star)] + AtomTokens(r)
  }

  /** Entries separated by commas, as a declaration writes them. */
  function DimListTokens(ds: seq<Dim>): seq<Token> {
    if ds == [] then []
    else if |ds| == 1 then DimTokens(ds[0])
    else DimTokens(ds[0]) + [PunctTok(Comma)] + DimListTokens(ds[1..])
  }

  lemma AtomRoundTrip(a: DimAtom, rest: seq<Token>)
    ensures ParseDimAtom(AtomTokens(a) + rest) == Ok(Parsed(a, rest))
  {
    var ts := AtomTokens(a) + rest;
    match a
    case AtomIdent(n) =>
      assert ts[1..] == rest;
    case AtomLit(l) =>
      LitRoundTrip(l, rest);
  }

  /** `a*b` is read back as one product when the next token is not `*`. */
  lemma MulRoundTrip(left: DimAtom, right: DimAtom, rest: seq<Token>)
    ensures DimEntry(DimTokens(DimMul(left, right)) + rest) == Ok(Parsed(DimMul(left, right), rest))
  {
    var ts := DimTokens(DimMul(left, right)) + rest;
    var tail := [PunctTok(Star)] + AtomTokens(right) + rest;
    assert ts == AtomTokens(left) + tail;
    assert tail[1..] == AtomTokens(right) + rest;
    AtomRoundTrip(right, rest);
    match left
    case AtomIdent(n) =>
      assert ts[1..] == tail;
    case AtomLit(l) =>
      LitRoundTrip(l, tail);
  }

  /** An entry is read back whole when the next token is not `*`. */
  lemma DimEntryRoundTrip(d: Dim, rest: seq<Token>)
    requires !PeekPunct(rest, Star)
    ensures DimEntry(DimTokens(d) + rest) == Ok(Parsed(d, rest))
  {
    var ts := DimTokens(d) + rest;
    match d
    case DimIdent(n) =>
      assert ts[1..] == rest;
    case DimLit(l) =>
      LitRoundTrip(l, rest);
    case DimMul(left, right) =>
      MulRoundTrip(left, right, rest);
  }

  /** Printing a shape list and reading it back gives the same list. */
  lemma {:induction false} DimListRoundTrip(ds: seq<Dim>)
    ensures DimListOf(DimListTokens(ds)) == Ok(ds)
    decreases |ds|
  {
    if |ds| == 1 {
      DimEntryRoundTrip(ds[0], []);
      assert DimTokens(ds[0]) + [] == DimListTokens(ds);
      assert SkipComma([]) == [];
      PrependDone([ds[0]]);
      assert [ds[0]] == ds;
    } else if |ds| > 1 {
      var rest := [PunctTok(Comma)] + DimListTokens(ds[1..]);
      DimEntryRoundTrip(ds[0], rest);
      assert DimTokens(ds[0]) + rest == DimListTokens(ds);
      assert rest[1..] == DimListTokens(ds[1..]);
      DimListRoundTrip(ds[1..]);
      assert [ds[0]] + ds[1..] == ds;
    }
  }

  /** `x: f32[...]`: a bracketed list reads back to the same shape. */
  lemma DimsRoundTrip(ds: seq<Dim>, rest: seq<Token>)
    ensures DimsOf([Group(Bracket, DimListTokens(ds))] + rest) == Ok(Parsed(ds, rest))
  {
    DimListRoundTrip(ds);
    assert ([Group(Bracket, DimListTokens(ds))] + rest)[1..] == rest;
  }

  // ---- edge cases ----

  /** Only one `*` is read per entry: `B*D*E` stops at the second `*`. */
  lemma SecondStarRejected()
    ensures DimListOf([Ident("B"), PunctTok(Star), Ident("D"), PunctTok(Star), Ident("E")])
         == Err("expected identifier")
  {
    var ts := [Ident("B"), PunctTok(Star), Ident("D"), PunctTok(Star), Ident("E")];
    assert ts[1..][1..] == [Ident("D"), PunctTok(Star), Ident("E")];
    assert DimEntry(ts) == Ok(Parsed(DimMul(AtomIdent("B"), AtomIdent("D")), [PunctTok(Star), Ident("E")]));
  }

  /** `[B*]`: `*` with nothing after it. */
  lemma DanglingStarRejected()
    ensures DimListOf([Ident("B"), PunctTok(Star)])
         == Err("expected identifier or integer for dimension expression")
  {
    var ts := [Ident("B"), PunctTok(Star)];
    assert ts[1..][1..] == [];
  }

  /** `[]` is an empty shape, and a trailing comma is accepted. */
  lemma EmptyAndTrailingComma()
    ensures DimsOf([Group(Bracket, [])]) == Ok(Parsed([], []))
    ensures DimListOf([Ident("B"), PunctTok(Comma)]) == Ok([DimIdent("B")])
  {
    var ts := [Ident("B"), PunctTok(Comma)];
    assert ts[1..][1..] == [];
    PrependDone([DimIdent("B")]);
  }
}
