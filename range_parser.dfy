/** Loop bounds: `0`, `N` (src/parsers/range.rs). */
module RangeParser {
  import opened Results
  import opened Tokens
  import opened Ast

  /** `parse_range_value`: an integer literal, else an identifier, else an error. */
  function ParseRangeValue(ts: seq<Token>): (r: Result<Parsed<RangeValue>>)
    ensures r.Ok? <==> PeekLitInt(ts) || PeekIdent(ts)
    ensures r.Ok? ==> Size(r.value.rest) < Size(ts)
    ensures PeekLitInt(ts) ==> r == Ok(Parsed(RangeLit(TakeLitInt(ts).out), TakeLitInt(ts).rest))
    ensures PeekIdent(ts) ==> r == Ok(Parsed(RangeIdent(ts[0].name), ts[1..]))
    ensures r.Err? ==> r.msg == "expected identifier or integer for loop range"
  {
    if PeekLitInt(ts) then
      var lit := TakeLitInt(ts);
      Ok(Parsed(RangeLit(lit.out), lit.rest))
    else if PeekIdent(ts) then
      Ok(Parsed(RangeIdent(ts[0].name), ts[1..]))
    else
      Err("expected identifier or integer for loop range")
  }

  function RangeTokens(v: RangeValue): seq<Token> {
    match v
    case RangeIdent(n) => [Ident(n)]
    case RangeLit(l) => LitTokens(l)
  }

  lemma RangeRoundTrip(v: RangeValue, rest: seq<Token>)
    ensures ParseRangeValue(RangeTokens(v) + rest) == Ok(Parsed(v, rest))
  {
    match v
    case RangeIdent(n) =>
      assert (RangeTokens(v) + rest)[1..] == rest;
    case RangeLit(l) =>
      LitRoundTrip(l, rest);
  }

  /** `1..N`: a literal start and a named end. */
  lemma LiteralToName()
    ensures ParseRangeValue([IntTok(Lit(1)), PunctTok(DotDot), Ident("N")])
         == Ok(Parsed(RangeLit(Lit(1)), [PunctTok(DotDot), Ident("N")]))
    ensures ParseRangeValue([Ident("N")]) == Ok(Parsed(RangeIdent("N"), []))
  {
  }

  /** `..3` has no start; a sign alone is no bound either, but `-1` is syn's negative literal. */
  lemma MissingStart()
    ensures ParseRangeValue([PunctTok(DotDot), IntTok(Lit(3))]) == Err("expected identifier or integer for loop range")
    ensures ParseRangeValue([PunctTok(Minus), Ident("N")]) == Err("expected identifier or integer for loop range")
    ensures ParseRangeValue([PunctTok(Minus), IntTok(Lit(1))]) == Ok(Parsed(RangeLit(LitInt(true, 1, "1")), []))
  {
    assert DecimalText(1) == "1";
  }
}
