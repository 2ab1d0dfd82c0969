/** Op arguments and op setting values: `x`, `w[i]`, `alpha = -0.5`,
    `axes = [0, -1]` (src/parsers/op.rs). */
module OpParser {
  import opened Results
  import opened Tokens
  import opened Ast
  import opened VarParser

  /** One list element: an optional `-`, an integer literal read as i64, negated when signed. */
  function IntListEntry(content: seq<Token>): (r: Result<Parsed<Int64>>)
    ensures r.Ok? ==> Size(r.value.rest) < Size(content)
    ensures r.Ok? ==> PeekLitInt(Sign(content).1)
  {
    var (negative, afterSign) := Sign(content);
    var lit :- ParseLitInt(afterSign);
    var value :- SignedI64(lit.out, negative);
    Ok(Parsed(value, lit.rest))
  }

  /** The content of an integer list; a comma after an element is optional. */
  function IntListOf(content: seq<Token>): (r: Result<seq<Int64>>)
    ensures r.Ok? ==> (r.value == [] <==> content == [])
    decreases Size(content)
  {
    if content == [] then Ok([])
    else
      var entry :- IntListEntry(content);
      Prepend([entry.out], IntListOf(SkipComma(entry.rest)))
  }

  /** The value after an optional `-` that is not an integer list. */
  function ScalarOf(negative: bool, ts: seq<Token>): (r: Result<Parsed<OpAttrValue>>)
    ensures r.Ok? ==> Size(r.value.rest) < Size(ts)
    ensures r.Ok? ==> !r.value.out.IntListAttr? && !r.value.out.FloatAttr?
    ensures negative && r.Ok? ==> r.value.out.DoubleAttr? || r.value.out.IntAttr?
  {
    if PeekLitFloat(ts) then
      var lit := TakeLitFloat(ts);
      Ok(Parsed(DoubleAttr(Number(lit.out, negative)), lit.rest))
    else if PeekBool(ts) then
      if negative then Err("unexpected '-' before bool literal")
      else Ok(Parsed(BoolAttr(ts[0].b), ts[1..]))
    else if PeekLitInt(ts) then
      var lit := TakeLitInt(ts);
      var value :- SignedI64(lit.out, negative);
      Ok(Parsed(IntAttr(value), lit.rest))
    else if PeekStr(ts) then
      if negative then Err("unexpected '-' before string literal")
      else Ok(Parsed(StringAttr(ts[0].s), ts[1..]))
    else if PeekIdent(ts) then
      var name := ts[0].name;
      if negative then Err("unexpected '-' before identifier")
      else if name == "true" then Ok(Parsed(BoolAttr(true), ts[1..]))
      else if name == "false" then Ok(Parsed(BoolAttr(false), ts[1..]))
      else if name == "inf" then Ok(Parsed(DoubleAttr(Infinity(false)), ts[1..]))
      else Ok(Parsed(VarAttr(name), ts[1..]))
    else Err("expected literal or identifier for op setting")
  }

  /** What `parse_op_attr_value` reads: a `[...]` integer list, or a signed scalar. */
  function OpAttrValueOf(ts: seq<Token>): (r: Result<Parsed<OpAttrValue>>)
    ensures r.Ok? ==> Size(r.value.rest) < Size(ts)
    ensures r.Ok? && r.value.out.IntListAttr? <==> PeekGroup(ts, Bracket) && IntListOf(ts[0].inner).Ok?
  {
    if PeekGroup(ts, Bracket) then
      SizeFirst(ts);
      var values :- IntListOf(ts[0].inner);
      Ok(Parsed(IntListAttr(values), ts[1..]))
    else
      var (negative, afterSign) := Sign(ts);
      ScalarOf(negative, afterSign)
  }

  /** `parse_op_attr_value`. */
  method ParseOpAttrValue(ts: seq<Token>) returns (r: Result<Parsed<OpAttrValue>>)
    ensures r == OpAttrValueOf(ts)
  {
    if PeekGroup(ts, Bracket) {
      var content := ts[0].inner;
      var values: seq<Int64> := [];
      PrependNothing(IntListOf(content));
      while content != []
        invariant IntListOf(ts[0].inner) == Prepend(values, IntListOf(content))
        decreases Size(content)
      {
        var entry := IntListEntry(content);
        if entry.Err? {
          return Err(entry.msg);
        }
        PrependAppend(values, [entry.value.out], IntListOf(SkipComma(entry.value.rest)));
        values := values + [entry.value.out];
        content := SkipComma(entry.value.rest);
      }
      PrependDone(values);
      return Ok(Parsed(IntListAttr(values), ts[1..]));
    }
    var (negative, afterSign) := Sign(ts);
    r := ScalarOf(negative, afterSign);
  }

  /** `parse_op_arg`: `name = value` is a setting; otherwise a variable reference. */
  function OpArgOf(ts: seq<Token>): (r: Result<Parsed<OpArg>>)
    ensures r.Ok? ==> Size(r.value.rest) < Size(ts)
    ensures r.Ok? ==> PeekIdent(ts)
    ensures r.Ok? && r.value.out.Setting? ==> PeekPunct(ts[1..], Eq) && r.value.out.setting.name == ts[0].name
    ensures r.Ok? && r.value.out.Input? ==> !PeekPunct(ts[1..], Eq) && ParseVarRef(ts) == Ok(Parsed(r.value.out.input, r.value.rest))
  {
    var name :- ExpectIdent(ts);
    if PeekPunct(name.rest, Eq) then
      SizeFirst(name.rest);
      var value :- OpAttrValueOf(name.rest[1..]);
      Ok(Parsed(Setting(OpSetting(name.out, value.out)), value.rest))
    else if PeekGroup(name.rest, Bracket) then
      var indices :- IndicesOf(name.rest);
      Ok(Parsed(Input(VarRef(name.out, indices.out)), indices.rest))
    else
      Ok(Parsed(Input(VarRef(name.out, [])), name.rest))
  }

  /** `name = value`: the setting holds exactly what the value parser reads after `=`, and
      the argument fails exactly when that value does. */
  lemma SettingArg(ts: seq<Token>)
    requires PeekIdent(ts) && PeekPunct(ts[1..], Eq)
    ensures OpArgOf(ts).Ok? <==> OpAttrValueOf(ts[2..]).Ok?
    ensures OpArgOf(ts).Ok? ==>
              OpArgOf(ts).value.out == Setting(OpSetting(ts[0].name, OpAttrValueOf(ts[2..]).value.out))
              && OpArgOf(ts).value.rest == OpAttrValueOf(ts[2..]).value.rest
  {
    assert ts[1..][1..] == ts[2..];
  }

  // ---- printing, and the round trip ----

  /** An integer the parser can read back: i64::MIN has no positive i64 magnitude. */
  predicate IntPrintable(v: Int64) {
    v != I64Min
  }

  /** A value some input produces: not a single-precision float (the parser never
      makes one), not `-inf`, and no variable the identifier branch would turn into
      a literal. A number may be negated twice: `- -1.5` is a sign before syn's
      negative literal. */
  predicate ValuePrintable(v: OpAttrValue) {
    match v
    case FloatAttr(_) => false
    case DoubleAttr(d) => d == Infinity(false) || d.Number?
    case IntAttr(i) => IntPrintable(i)
    case BoolAttr(_) => true
    case StringAttr(_) => true
    case IntListAttr(items) => forall i :: 0 <= i < |items| ==> IntPrintable(items[i])
    case VarAttr(name) => name !in {"true", "false", "inf"}
  }

  function IntListTokens(items: seq<Int64>): seq<Token> {
    if items == [] then []
    else if |items| == 1 then IntTokens(items[0])
    else IntTokens(items[0]) + [PunctTok(Comma)] + IntListTokens(items[1..])
  }

  function ValueTokens(v: OpAttrValue): seq<Token> {
    match v
    case FloatAttr(_) => []
    case DoubleAttr(d) =>
      if d.Infinity? then [Ident("inf")]
      else if d.negated then [PunctTok(Minus), FloatTok(d.lit)]
      else [FloatTok(d.lit)]
    case IntAttr(i) => IntTokens(i)
    case BoolAttr(b) => [BoolTok(b)]
    case StringAttr(s) => [StrTok(s)]
    case IntListAttr(items) => [Group(Bracket, IntListTokens(items))]
    case VarAttr(name) => [Ident(name)]
  }

  lemma IntEntryRoundTrip(v: Int64, rest: seq<Token>)
    requires IntPrintable(v)
    ensures IntListEntry(IntTokens(v) + rest) == Ok(Parsed(v, rest))
  {
    var ts := IntTokens(v) + rest;
    if v < 0 {
      assert ts[1..] == [IntTok(Lit(-v))] + rest;
      assert ts[1..][1..] == rest;
    } else {
      assert ts[1..] == rest;
    }
  }

  /** One step of the list loop: the entry, then the rest after an optional comma. */
  lemma IntListStep(content: seq<Token>, v: Int64, after: seq<Token>)
    requires IntListEntry(content) == Ok(Parsed(v, after))
    ensures IntListOf(content) == Prepend([v], IntListOf(SkipComma(after)))
  {
  }

  lemma IntListSingle(v: Int64)
    requires IntPrintable(v)
    ensures IntListOf(IntListTokens([v])) == Ok([v])
  {
    IntEntryRoundTrip(v, []);
    assert IntTokens(v) + [] == IntListTokens([v]);
    IntListStep(IntListTokens([v]), v, []);
    assert [v] + [] == [v];
  }

  /** A printed list of two or more entries: the first entry, a comma, then the others. */
  lemma IntListCons(items: seq<Int64>)
    requires |items| > 1 && IntPrintable(items[0])
    ensures IntListOf(IntListTokens(items)) == Prepend([items[0]], IntListOf(IntListTokens(items[1..])))
  {
    var more := IntListTokens(items[1..]);
    var rest := [PunctTok(Comma)] + more;
    IntListTokensCons(items);
    IntEntryRoundTrip(items[0], rest);
    IntListStep(IntTokens(items[0]) + rest, items[0], rest);
    assert SkipComma(rest) == more;
  }

  lemma IntListTokensCons(items: seq<Int64>)
    requires |items| > 1
    ensures IntListTokens(items) == IntTokens(items[0]) + ([PunctTok(Comma)] + IntListTokens(items[1..]))
  {
  }

  lemma {:induction false} IntListRoundTrip(items: seq<Int64>)
    requires forall i :: 0 <= i < |items| ==> IntPrintable(items[i])
    ensures IntListOf(IntListTokens(items)) == Ok(items)
    decreases |items|
  {
    if |items| == 1 {
      IntListSingle(items[0]);
      assert [items[0]] == items;
    } else if |items| > 1 {
      IntListCons(items);
      IntListRoundTrip(items[1..]);
      assert [items[0]] + items[1..] == items;
    }
  }

  /** Printing a setting value and reading it back gives the same value, whatever follows. */
  lemma ValueRoundTrip(v: OpAttrValue, rest: seq<Token>)
    requires ValuePrintable(v)
    ensures OpAttrValueOf(ValueTokens(v) + rest) == Ok(Parsed(v, rest))
  {
    var ts := ValueTokens(v) + rest;
    match v
    case IntListAttr(items) =>
      IntListRoundTrip(items);
      assert ts[1..] == rest;
    case IntAttr(i) =>
      IntValueRoundTrip(i, rest);
    case DoubleAttr(d) =>
      DoubleValueRoundTrip(d, rest);
    case BoolAttr(_) =>
      assert ts[1..] == rest;
    case StringAttr(_) =>
      assert ts[1..] == rest;
    case VarAttr(name) =>
      assert ts[1..] == rest;
  }

  lemma IntValueRoundTrip(i: Int64, rest: seq<Token>)
    requires IntPrintable(i)
    ensures OpAttrValueOf(IntTokens(i) + rest) == Ok(Parsed(IntAttr(i), rest))
  {
    if i < 0 {
      NegativeIntRoundTrip(i, rest);
    } else {
      var ts := [IntTok(Lit(i))] + rest;
      assert ts[1..] == rest;
      assert TakeLitInt(ts) == Parsed(Lit(i), rest);
      assert ScalarOf(false, ts) == Ok(Parsed(IntAttr(i), rest));
    }
  }

  lemma NegativeIntRoundTrip(i: Int64, rest: seq<Token>)
    requires I64Min < i < 0
    ensures OpAttrValueOf(IntTokens(i) + rest) == Ok(Parsed(IntAttr(i), rest))
  {
    var tail := [IntTok(Lit(-i))] + rest;
    assert IntTokens(i) + rest == [PunctTok(Minus)] + tail;
    assert tail[1..] == rest;
    assert TakeLitInt(tail) == Parsed(Lit(-i), rest);
    assert SignedI64(Lit(-i), true) == Ok(i);
    assert ScalarOf(true, tail) == Ok(Parsed(IntAttr(i), rest));
  }

  lemma DoubleValueRoundTrip(d: FloatValue, rest: seq<Token>)
    requires ValuePrintable(DoubleAttr(d))
    ensures OpAttrValueOf(ValueTokens(DoubleAttr(d)) + rest) == Ok(Parsed(DoubleAttr(d), rest))
  {
    if d.Infinity? {
      InfinityRoundTrip(rest);
    } else if d.negated {
      NegatedNumberRoundTrip(d.lit, rest);
    } else {
      NumberRoundTrip(d.lit, rest);
    }
  }

  lemma InfinityRoundTrip(rest: seq<Token>)
    ensures OpAttrValueOf([Ident("inf")] + rest) == Ok(Parsed(DoubleAttr(Infinity(false)), rest))
  {
    var ts := [Ident("inf")] + rest;
    assert ts[1..] == rest;
    assert ScalarOf(false, ts) == Ok(Parsed(DoubleAttr(Infinity(false)), rest));
  }

  lemma NegatedNumberRoundTrip(lit: LitFloat, rest: seq<Token>)
    ensures OpAttrValueOf([PunctTok(Minus), FloatTok(lit)] + rest) == Ok(Parsed(DoubleAttr(Number(lit, true)), rest))
  {
    var tail := [FloatTok(lit)] + rest;
    assert ([PunctTok(Minus), FloatTok(lit)] + rest)[1..] == tail;
    FloatRoundTrip(lit, rest);
    assert ScalarOf(true, tail) == Ok(Parsed(DoubleAttr(Number(lit, true)), rest));
  }

  lemma NumberRoundTrip(lit: LitFloat, rest: seq<Token>)
    ensures OpAttrValueOf([FloatTok(lit)] + rest) == Ok(Parsed(DoubleAttr(Number(lit, false)), rest))
  {
    FloatRoundTrip(lit, rest);
    assert ScalarOf(false, [FloatTok(lit)] + rest) == Ok(Parsed(DoubleAttr(Number(lit, false)), rest));
  }

  lemma FloatRoundTrip(lit: LitFloat, rest: seq<Token>)
    ensures PeekLitFloat([FloatTok(lit)] + rest)
    ensures TakeLitFloat([FloatTok(lit)] + rest) == Parsed(lit, rest)
  {
    assert ([FloatTok(lit)] + rest)[1..] == rest;
  }

  // ---- edge cases ----

  /** A sign is only accepted before a number. */
  lemma SignBeforeNonNumber(t: Token, rest: seq<Token>)
    requires t.BoolTok? || t.StrTok? || t.Ident?
    ensures OpAttrValueOf([PunctTok(Minus), t] + rest)
         == Err(if t.BoolTok? then "unexpected '-' before bool literal"
                else if t.StrTok? then "unexpected '-' before string literal"
                else "unexpected '-' before identifier")
  {
    var tail := [t] + rest;
    assert ([PunctTok(Minus), t] + rest)[1..] == tail;
    assert !PeekLitFloat(tail) && !PeekLitInt(tail);
  }

  /** A signed magnitude beyond i64 is refused before the negation; so i64::MIN,
      whose magnitude is one more than i64::MAX, cannot be written. */
  lemma MagnitudeTooLarge(m: nat, rest: seq<Token>)
    requires m > I64Max
    ensures OpAttrValueOf([PunctTok(Minus), IntTok(Lit(m))] + rest) == Err("number too large to fit in target type")
    ensures IntListOf([PunctTok(Minus), IntTok(Lit(m))] + rest) == Err("number too large to fit in target type")
  {
    var tail := [IntTok(Lit(m))] + rest;
    assert ([PunctTok(Minus), IntTok(Lit(m))] + rest)[1..] == tail;
    assert TakeLitInt(tail) == Parsed(Lit(m), rest);
    assert ParseLitInt(tail) == Ok(Parsed(Lit(m), rest));
  }

  /** Elements of an integer list need no commas between them: `[1 2]` is `[1, 2]`. */
  lemma CommasOptional()
    ensures IntListOf([IntTok(Lit(1)), IntTok(Lit(2))]) == Ok([1, 2])
  {
    IntListRoundTrip([1, 2]);
    var ts := [IntTok(Lit(1)), IntTok(Lit(2))];
    assert IntListTokens([1, 2]) == [IntTok(Lit(1)), PunctTok(Comma), IntTok(Lit(2))];
    assert ts[1..] == [IntTok(Lit(2))];
    assert IntListEntry([IntTok(Lit(2))]) == Ok(Parsed(2, []));
    PrependDone([2]);
  }

  /** Anything else, a `,` or a keyword such as `self`, is not a setting value. */
  lemma NotAValue(rest: seq<Token>)
    ensures OpAttrValueOf([PunctTok(Comma)] + rest) == Err("expected literal or identifier for op setting")
    ensures OpAttrValueOf([Keyword("self")] + rest) == Err("expected literal or identifier for op setting")
  {
  }
}
