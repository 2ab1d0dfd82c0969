/** Cache accesses with optional index lists and slices: `t`, `t[]`, `t[i, .., 2.., ..-1]`
    (src/parsers/cache.rs). */
module CacheParser {
  import opened Results
  import opened Tokens
  import opened Ast

  /** The fully-open slice `..` that elided positions stand for. */
  const OpenSlice: CacheIndexExpr := Slice(None, None)

  /** `parse_cache_index_value`: `-`? then an i64 literal, or an identifier without sign. */
  function ParseCacheIndexValue(ts: seq<Token>): (r: Result<Parsed<CacheIndexValue>>)
    ensures r.Ok? ==> Size(r.value.rest) < Size(ts)
    ensures PeekIdent(ts) ==> r == Ok(Parsed(CacheIdent(ts[0].name), ts[1..]))
    ensures PeekPunct(ts, Minus) && PeekIdent(ts[1..]) ==> r == Err("unexpected '-' before identifier")
    ensures r.Ok? && r.value.out.CacheIdent? ==> PeekIdent(ts)
    ensures |ts| > 0 && ts[0].IntTok? ==>
              (r.Ok? <==> I64Min <= ts[0].lit.Value() <= I64Max)
              && (r.Ok? ==> r.value == Parsed(CacheLit(ts[0].lit.Value()), ts[1..]))
    ensures PeekPunct(ts, Minus) && |ts| > 1 && ts[1].IntTok? ==>
              (r.Ok? <==> I64Min < ts[1].lit.Value() <= I64Max)
              && (r.Ok? ==> r.value == Parsed(CacheLit(-ts[1].lit.Value()), ts[2..]))
    ensures !PeekLitInt(ts) && !PeekIdent(ts) && !PeekPunct(ts, Minus)
            ==> r == Err("expected identifier or integer for cache index")
  {
    var negative := PeekPunct(ts, Minus);
    var after := if negative then ts[1..] else ts;
    if PeekLitInt(after) then
      var lit := TakeLitInt(after);
      var value :- SignedI64(lit.out, negative);
      Ok(Parsed(CacheLit(value), lit.rest))
    else if PeekIdent(after) then
      if negative then Err("unexpected '-' before identifier")
      else Ok(Parsed(CacheIdent(after[0].name), after[1..]))
    else
      Err("expected identifier or integer for cache index")
  }

  /** `parse_cache_index_value_opt`: a slice bound is absent at `,` or at the end. */
  function ParseCacheIndexValueOpt(content: seq<Token>): (r: Result<Parsed<Option<CacheIndexValue>>>)
    ensures r.Ok? ==> Size(r.value.rest) <= Size(content)
    ensures r.Ok? && r.value.out.None? <==> content == [] || PeekPunct(content, Comma)
    ensures content == [] || PeekPunct(content, Comma) ==> r == Ok(Parsed(None, content))
  {
    if content == [] || PeekPunct(content, Comma) then Ok(Parsed(None, content))
    else
      var value :- ParseCacheIndexValue(content);
      Ok(Parsed(Some(value.out), value.rest))
  }

  /** One entry that does not start with `,`: `..e`, `s..e` or a single value. */
  function CacheEntry(content: seq<Token>): (r: Result<Parsed<CacheIndexExpr>>)
    ensures r.Ok? ==> Size(r.value.rest) < Size(content)
  {
    if PeekPunct(content, DotDot) then
      var end :- ParseCacheIndexValueOpt(content[1..]);
      Ok(Parsed(Slice(None, end.out), end.rest))
    else
      var start :- ParseCacheIndexValue(content);
      if PeekPunct(start.rest, DotDot) then
        var end :- ParseCacheIndexValueOpt(start.rest[1..]);
        Ok(Parsed(Slice(Some(start.out), end.out), end.rest))
      else
        Ok(Parsed(Single(start.out), start.rest))
  }

  /** The bracket content: a `,` where an entry is expected stands for `..`, and a
      `,` that ends the list after an entry adds one more `..`. */
  function CacheIndexListOf(content: seq<Token>): Result<seq<CacheIndexExpr>>
    decreases Size(content)
  {
    if content == [] then Ok([])
    else if PeekPunct(content, Comma) then
      SizeFirst(content);
      Prepend([OpenSlice], CacheIndexListOf(content[1..]))
    else
      var entry :- CacheEntry(content);
      if PeekPunct(entry.rest, Comma) then
        SizeFirst(entry.rest);
        if entry.rest[1..] == [] then Ok([entry.out, OpenSlice])
        else Prepend([entry.out], CacheIndexListOf(entry.rest[1..]))
      else
        Prepend([entry.out], CacheIndexListOf(entry.rest))
  }

  /** What `parse_cache_indices` reads: a `[...]` group, possibly empty. */
  function CacheIndicesOf(ts: seq<Token>): (r: Result<Parsed<seq<CacheIndexExpr>>>)
    ensures r.Ok? <==> PeekGroup(ts, Bracket) && CacheIndexListOf(ts[0].inner).Ok?
    ensures r.Ok? ==> r.value == Parsed(CacheIndexListOf(ts[0].inner).value, ts[1..])
  {
    var group :- ExpectGroup(ts, Bracket);
    var indices :- CacheIndexListOf(group.out);
    Ok(Parsed(indices, group.rest))
  }

  /** `parse_cache_indices`. */
  method ParseCacheIndices(ts: seq<Token>) returns (r: Result<Parsed<seq<CacheIndexExpr>>>)
    ensures r == CacheIndicesOf(ts)
  {
    if !PeekGroup(ts, Bracket) {
      return Err("expected square brackets");
    }
    var content := ts[0].inner;
    var indices: seq<CacheIndexExpr> := [];
    PrependNothing(CacheIndexListOf(content));
    while content != []
      invariant CacheIndexListOf(ts[0].inner) == Prepend(indices, CacheIndexListOf(content))
      decreases Size(content)
    {
      if PeekPunct(content, Comma) {
        SizeFirst(content);
        assert CacheIndexListOf(content) == Prepend([OpenSlice], CacheIndexListOf(content[1..]));
        PrependAppend(indices, [OpenSlice], CacheIndexListOf(content[1..]));
        indices := indices + [OpenSlice];
        content := content[1..];
        continue;
      }
      var entry := CacheEntry(content);
      if entry.Err? {
        return Err(entry.msg);
      }
      var rest := entry.value.rest;
      if PeekPunct(rest, Comma) {
        SizeFirst(rest);
      }
      if PeekPunct(rest, Comma) && rest[1..] == [] {
        assert CacheIndexListOf(content) == Ok([entry.value.out, OpenSlice]);
        PrependDone([entry.value.out, OpenSlice]);
        PrependAppend(indices, [entry.value.out, OpenSlice], Ok([]));
        indices := indices + [entry.value.out, OpenSlice];
        content := [];
      } else {
        var next := if PeekPunct(rest, Comma) then rest[1..] else rest;
        assert CacheIndexListOf(content) == Prepend([entry.value.out], CacheIndexListOf(next));
        PrependAppend(indices, [entry.value.out], CacheIndexListOf(next));
        indices := indices + [entry.value.out];
        content := next;
      }
    }
    PrependDone(indices);
    return Ok(Parsed(indices, ts[1..]));
  }

  /** `parse_cache_access`: `bracketed` records whether a `[` group followed the name. */
  function ParseCacheAccess(ts: seq<Token>): (r: Result<Parsed<CacheAccess>>)
    ensures r.Ok? ==> Size(r.value.rest) < Size(ts)
    ensures r.Ok? ==> PeekIdent(ts) && r.value.out.name == ts[0].name
    ensures r.Ok? ==> (r.value.out.bracketed <==> PeekGroup(ts[1..], Bracket))
    ensures r.Ok? && !r.value.out.bracketed ==> r.value.out.indices == [] && r.value.rest == ts[1..]
    ensures PeekIdent(ts) && PeekGroup(ts[1..], Bracket) ==>
              r.Ok? == CacheIndexListOf(ts[1].inner).Ok? &&
              (r.Ok? ==> r.value.out.indices == CacheIndexListOf(ts[1].inner).value)
  {
    var name :- ExpectIdent(ts);
    if PeekGroup(name.rest, Bracket) then
      var indices :- CacheIndicesOf(name.rest);
      Ok(Parsed(CacheAccess(name.out, indices.out, true), indices.rest))
    else
      Ok(Parsed(CacheAccess(name.out, [], false), name.rest))
  }

  /** `parse_cache_amount`: the leading i64 literal, or 1 when there is none. */
  function ParseCacheAmount(ts: seq<Token>): (r: Result<Parsed<Int64>>)
    ensures !PeekLitInt(ts) ==> r == Ok(Parsed(1, ts))
    ensures PeekLitInt(ts) ==> r.Ok? == (I64Min <= TakeLitInt(ts).out.Value() <= I64Max)
    ensures PeekLitInt(ts) && r.Ok? ==> r.value == Parsed(TakeLitInt(ts).out.Value(), TakeLitInt(ts).rest)
    ensures r.Ok? ==> Size(r.value.rest) <= Size(ts)
  {
    if PeekLitInt(ts) then
      var lit := TakeLitInt(ts);
      var value :- ToI64(lit.out);
      Ok(Parsed(value, lit.rest))
    else
      Ok(Parsed(1, ts))
  }

  // ---- printing, and the round trip ----

  /** i64::MIN has no spelling: its magnitude does not fit in i64 before negation. */
  predicate ValuePrintable(v: CacheIndexValue) {
    match v
    case CacheIdent(_) => true
    case CacheLit(n) => n != I64Min
  }

  predicate OptPrintable(o: Option<CacheIndexValue>) {
    o.Some? ==> ValuePrintable(o.value)
  }

  predicate IndexPrintable(x: CacheIndexExpr) {
    match x
    case Single(v) => ValuePrintable(v)
    case Slice(s, e) => OptPrintable(s) && OptPrintable(e)
  }

  function ValueTokens(v: CacheIndexValue): seq<Token> {
    match v
    case CacheIdent(n) => [Ident(n)]
    case CacheLit(n) => IntTokens(n)
  }

  function OptTokens(o: Option<CacheIndexValue>): seq<Token> {
    match o
    case None => []
    case Some(v) => ValueTokens(v)
  }

  /** `v`, or `s..e` with either bound left out when absent. */
  function CacheIndexTokens(x: CacheIndexExpr): seq<Token> {
    match x
    case Single(v) => ValueTokens(v)
    case Slice(s, e) => OptTokens(s) + [PunctTok(DotDot)] + OptTokens(e)
  }

  function CacheIndexListTokens(xs: seq<CacheIndexExpr>): seq<Token> {
    if xs == [] then []
    else if |xs| == 1 then CacheIndexTokens(xs[0])
    else CacheIndexTokens(xs[0]) + [PunctTok(Comma)] + CacheIndexListTokens(xs[1..])
  }

  /** What may follow an entry: the end of the list or a separating comma. */
  predicate EntryEnd(rest: seq<Token>) {
    rest == [] || PeekPunct(rest, Comma)
  }

  lemma ValueRoundTrip(v: CacheIndexValue, rest: seq<Token>)
    requires ValuePrintable(v)
    ensures ParseCacheIndexValue(ValueTokens(v) + rest) == Ok(Parsed(v, rest))
  {
    var ts := ValueTokens(v) + rest;
    match v
    case CacheIdent(n) =>
      assert ts[1..] == rest;
    case CacheLit(n) =>
      if n < 0 {
        NegativeLitRoundTrip(n, rest);
      } else {
        assert ts[1..] == rest;
        assert TakeLitInt(ts) == Parsed(Lit(n), rest);
        assert SignedI64(Lit(n), false) == Ok(n);
      }
  }

  lemma NegativeLitRoundTrip(n: Int64, rest: seq<Token>)
    requires I64Min < n < 0
    ensures ParseCacheIndexValue(IntTokens(n) + rest) == Ok(Parsed(CacheLit(n), rest))
  {
    var ts := IntTokens(n) + rest;
    var after := ts[1..];
    assert after == [IntTok(Lit(-n))] + rest;
    assert after[1..] == rest;
    assert TakeLitInt(after) == Parsed(Lit(-n), rest);
    assert SignedI64(Lit(-n), true) == Ok(n);
  }

  lemma OptRoundTrip(o: Option<CacheIndexValue>, rest: seq<Token>)
    requires OptPrintable(o) && EntryEnd(rest)
    ensures ParseCacheIndexValueOpt(OptTokens(o) + rest) == Ok(Parsed(o, rest))
  {
    if o.Some? {
      ValueRoundTrip(o.value, rest);
    } else {
      assert OptTokens(o) + rest == rest;
    }
  }

  lemma SliceRoundTrip(s: Option<CacheIndexValue>, e: Option<CacheIndexValue>, rest: seq<Token>)
    requires OptPrintable(s) && OptPrintable(e) && EntryEnd(rest)
    ensures CacheEntry(CacheIndexTokens(Slice(s, e)) + rest) == Ok(Parsed(Slice(s, e), rest))
  {
    var tail := [PunctTok(DotDot)] + (OptTokens(e) + rest);
    OpenStartRoundTrip(e, rest);
    SliceSpelled(s, e, rest);
    if s.Some? {
      StartedSliceRoundTrip(s.value, e, rest, tail);
    }
  }

  lemma SliceSpelled(s: Option<CacheIndexValue>, e: Option<CacheIndexValue>, rest: seq<Token>)
    ensures CacheIndexTokens(Slice(s, e)) + rest == OptTokens(s) + ([PunctTok(DotDot)] + (OptTokens(e) + rest))
    ensures s.None? ==> CacheIndexTokens(Slice(s, e)) + rest == [PunctTok(DotDot)] + (OptTokens(e) + rest)
  {
  }

  /** `..e`: the bound after `..` is read back. */
  lemma OpenStartRoundTrip(e: Option<CacheIndexValue>, rest: seq<Token>)
    requires OptPrintable(e) && EntryEnd(rest)
    ensures ParseCacheIndexValueOpt(([PunctTok(DotDot)] + (OptTokens(e) + rest))[1..]) == Ok(Parsed(e, rest))
    ensures CacheEntry([PunctTok(DotDot)] + (OptTokens(e) + rest)) == Ok(Parsed(Slice(None, e), rest))
  {
    var tail := [PunctTok(DotDot)] + (OptTokens(e) + rest);
    assert tail[1..] == OptTokens(e) + rest;
    OptRoundTrip(e, rest);
  }

  lemma StartedSliceRoundTrip(v: CacheIndexValue, e: Option<CacheIndexValue>, rest: seq<Token>, tail: seq<Token>)
    requires ValuePrintable(v) && PeekPunct(tail, DotDot)
    requires ParseCacheIndexValueOpt(tail[1..]) == Ok(Parsed(e, rest))
    ensures CacheEntry(ValueTokens(v) + tail) == Ok(Parsed(Slice(Some(v), e), rest))
  {
    var ts := ValueTokens(v) + tail;
    ValueRoundTrip(v, tail);
    assert ts[0] == ValueTokens(v)[0];
    assert !PeekPunct(ts, DotDot);
    assert ParseCacheIndexValue(ts) == Ok(Parsed(v, tail));
  }

  lemma EntryRoundTrip(x: CacheIndexExpr, rest: seq<Token>)
    requires IndexPrintable(x) && EntryEnd(rest)
    ensures CacheEntry(CacheIndexTokens(x) + rest) == Ok(Parsed(x, rest))
  {
    match x
    case Single(v) =>
      ValueRoundTrip(v, rest);
      var ts := CacheIndexTokens(x) + rest;
      assert !PeekPunct(ts, DotDot) by {
        if v.CacheLit? && v.n < 0 {
          assert ts[0] == PunctTok(Minus);
        }
      }
    case Slice(s, e) =>
      SliceRoundTrip(s, e, rest);
  }

  lemma EntryTokensNonEmpty(x: CacheIndexExpr)
    ensures CacheIndexTokens(x) != [] && !PeekPunct(CacheIndexTokens(x), Comma)
  {
    match x
    case Single(v) =>
    case Slice(s, e) =>
      if s.None? {
        assert CacheIndexTokens(x)[0] == PunctTok(DotDot);
      }
  }

  /** Printing an index list and reading it back gives the same list. */
  lemma {:induction false} CacheIndexListRoundTrip(xs: seq<CacheIndexExpr>)
    requires forall i :: 0 <= i < |xs| ==> IndexPrintable(xs[i])
    ensures CacheIndexListOf(CacheIndexListTokens(xs)) == Ok(xs)
    decreases |xs|
  {
    if |xs| == 1 {
      EntryRoundTrip(xs[0], []);
      EntryTokensNonEmpty(xs[0]);
      assert CacheIndexTokens(xs[0]) + [] == CacheIndexListTokens(xs);
      PrependDone([xs[0]]);
      assert [xs[0]] == xs;
    } else if |xs| > 1 {
      var rest := [PunctTok(Comma)] + CacheIndexListTokens(xs[1..]);
      EntryRoundTrip(xs[0], rest);
      EntryTokensNonEmpty(xs[0]);
      EntryTokensNonEmpty(xs[1]);
      assert CacheIndexTokens(xs[0]) + rest == CacheIndexListTokens(xs);
      assert rest[1..] == CacheIndexListTokens(xs[1..]);
      assert CacheIndexListTokens(xs[1..]) != [] && !PeekPunct(CacheIndexListTokens(xs[1..]), Comma) by {
        if |xs[1..]| > 1 {
          assert CacheIndexListTokens(xs[1..]) == CacheIndexTokens(xs[1]) + [PunctTok(Comma)] + CacheIndexListTokens(xs[2..]);
        }
      }
      CacheIndexListRoundTrip(xs[1..]);
      assert [xs[0]] + xs[1..] == xs;
    }
  }

  /** An access the parser can produce: no indices without brackets, every index printable. */
  predicate AccessPrintable(a: CacheAccess) {
    (a.bracketed || a.indices == []) && forall i :: 0 <= i < |a.indices| ==> IndexPrintable(a.indices[i])
  }

  function CacheAccessTokens(a: CacheAccess): seq<Token> {
    if a.bracketed then [Ident(a.name), Group(Bracket, CacheIndexListTokens(a.indices))]
    else [Ident(a.name)]
  }

  /** Printing an access and reading it back gives the same access, provided an
      unbracketed name is not followed by a `[` group it would swallow. */
  lemma CacheAccessRoundTrip(a: CacheAccess, rest: seq<Token>)
    requires AccessPrintable(a) && (!a.bracketed ==> !PeekGroup(rest, Bracket))
    ensures ParseCacheAccess(CacheAccessTokens(a) + rest) == Ok(Parsed(a, rest))
  {
    var ts := CacheAccessTokens(a) + rest;
    if a.bracketed {
      var after := [Group(Bracket, CacheIndexListTokens(a.indices))] + rest;
      assert ts == [Ident(a.name)] + after;
      assert ts[1..] == after;
      assert after[1..] == rest;
      CacheIndexListRoundTrip(a.indices);
    } else {
      assert ts[1..] == rest;
    }
  }

  /** An amount is read back from its spelling; i64::MIN is syn's negative literal. */
  lemma AmountRoundTrip(v: Int64, rest: seq<Token>)
    ensures ParseCacheAmount(IntTokens(v) + rest) == Ok(Parsed(v, rest))
  {
    var ts := IntTokens(v) + rest;
    if v < 0 {
      var m: nat := -(v as int);
      assert ts[1..] == [IntTok(Lit(m))] + rest;
      assert ts[1..][1..] == rest;
      assert ts[2..] == rest;
      assert TakeLitInt(ts) == Parsed(LitInt(true, m, DecimalText(m)), rest);
    } else {
      assert ts[1..] == rest;
    }
  }

  // ---- elided positions ----

  /** `k` commas in a row. */
  function Commas(k: nat): seq<Token> {
    seq(k, _ => PunctTok(Comma))
  }

  /** `k` open slices `..` in a row. */
  function OpenSlices(k: nat): seq<CacheIndexExpr> {
    seq(k, _ => OpenSlice)
  }

  /** Each of `k` leading commas stands for one `..`, so positions before the first
      written entry are kept. */
  lemma {:induction false} LeadingComma(k: nat, content: seq<Token>)
    ensures CacheIndexListOf(Commas(k) + content) == Prepend(OpenSlices(k), CacheIndexListOf(content))
    decreases k
  {
    if k == 0 {
      assert Commas(0) + content == content;
      PrependNothing(CacheIndexListOf(content));
    } else {
      var ts := Commas(k) + content;
      assert PeekPunct(ts, Comma);
      assert ts[1..] == Commas(k - 1) + content;
      LeadingComma(k - 1, content);
      PrependAppend([OpenSlice], OpenSlices(k - 1), CacheIndexListOf(content));
      assert [OpenSlice] + OpenSlices(k - 1) == OpenSlices(k);
    }
  }

  /** A comma that ends the list after an entry adds one `..` at the end. */
  lemma TrailingComma(x: CacheIndexExpr)
    requires IndexPrintable(x)
    ensures CacheIndexListOf(CacheIndexTokens(x) + [PunctTok(Comma)]) == Ok([x, OpenSlice])
  {
    EntryRoundTrip(x, [PunctTok(Comma)]);
    EntryTokensNonEmpty(x);
  }

  /** `t[1, .., 2.., ..3, 4..5]`: the entries in the order written. */
  const FiveEntryList: seq<CacheIndexExpr> :=
    [Single(CacheLit(1)), OpenSlice, Slice(Some(CacheLit(2)), None),
     Slice(None, Some(CacheLit(3))), Slice(Some(CacheLit(4)), Some(CacheLit(5)))]

  /** The bracket content of `t[1, .., 2.., ..3, 4..5]`. */
  const FiveEntryTokens: seq<Token> :=
    [IntTok(Lit(1)), PunctTok(Comma), PunctTok(DotDot), PunctTok(Comma),
     IntTok(Lit(2)), PunctTok(DotDot), PunctTok(Comma),
     PunctTok(DotDot), IntTok(Lit(3)), PunctTok(Comma),
     IntTok(Lit(4)), PunctTok(DotDot), IntTok(Lit(5))]

  lemma FiveEntriesSpelled()
    ensures CacheIndexListTokens(FiveEntryList) == FiveEntryTokens
  {
    var xs := FiveEntryList;
    assert CacheIndexListTokens(xs[4..]) == [IntTok(Lit(4)), PunctTok(DotDot), IntTok(Lit(5))];
    assert CacheIndexListTokens(xs[3..]) == [PunctTok(DotDot), IntTok(Lit(3)), PunctTok(Comma)] + CacheIndexListTokens(xs[4..]);
    assert CacheIndexListTokens(xs[2..]) == [IntTok(Lit(2)), PunctTok(DotDot), PunctTok(Comma)] + CacheIndexListTokens(xs[3..]);
    assert CacheIndexListTokens(xs[1..]) == [PunctTok(DotDot), PunctTok(Comma)] + CacheIndexListTokens(xs[2..]);
    assert CacheIndexListTokens(xs) == [IntTok(Lit(1)), PunctTok(Comma)] + CacheIndexListTokens(xs[1..]);
  }

  /** `t[1, .., 2.., ..3, 4..5]` has five entries, the second fully open. */
  lemma FiveEntries()
    ensures CacheIndexListOf(FiveEntryTokens) == Ok(FiveEntryList)
    ensures |FiveEntryList| == 5 && FiveEntryList[1] == OpenSlice
  {
    CacheIndexListRoundTrip(FiveEntryList);
    FiveEntriesSpelled();
  }

  /** `[,]` is one open slice. */
  lemma LoneComma()
    ensures CacheIndexListOf([PunctTok(Comma)]) == Ok([OpenSlice])
  {
    LeadingComma(1, []);
    assert Commas(1) + [] == [PunctTok(Comma)];
    assert OpenSlices(1) == [OpenSlice];
    PrependDone([OpenSlice]);
  }

  /** `[1,]` has two entries. */
  lemma OneThenComma()
    ensures CacheIndexListOf([IntTok(Lit(1)), PunctTok(Comma)]) == Ok([Single(CacheLit(1)), OpenSlice])
  {
    TrailingComma(Single(CacheLit(1)));
    assert CacheIndexTokens(Single(CacheLit(1))) == [IntTok(Lit(1))];
  }

  /** An entry followed by a comma and more content. */
  lemma EntryThenComma(x: CacheIndexExpr, more: seq<Token>)
    requires IndexPrintable(x) && more != []
    ensures CacheIndexListOf(CacheIndexTokens(x) + [PunctTok(Comma)] + more)
         == Prepend([x], CacheIndexListOf(more))
  {
    var rest := [PunctTok(Comma)] + more;
    EntryRoundTrip(x, rest);
    EntryTokensNonEmpty(x);
    assert CacheIndexTokens(x) + [PunctTok(Comma)] + more == CacheIndexTokens(x) + rest;
    assert rest[1..] == more;
  }

  /** `[x,,y]` keeps the gap between the commas as an open slice. */
  lemma GapBetweenCommas(x: CacheIndexExpr, y: CacheIndexExpr)
    requires IndexPrintable(x) && IndexPrintable(y)
    ensures CacheIndexListOf(CacheIndexTokens(x) + [PunctTok(Comma), PunctTok(Comma)] + CacheIndexTokens(y))
         == Ok([x, OpenSlice, y])
  {
    var more := [PunctTok(Comma)] + CacheIndexTokens(y);
    CommaThenEntry(y);
    EntryThenComma(x, more);
    assert CacheIndexTokens(x) + [PunctTok(Comma)] + more
        == CacheIndexTokens(x) + [PunctTok(Comma), PunctTok(Comma)] + CacheIndexTokens(y);
    assert [x] + [OpenSlice, y] == [x, OpenSlice, y];
  }

  /** `[,y]`: an open slice, then `y`. */
  lemma CommaThenEntry(y: CacheIndexExpr)
    requires IndexPrintable(y)
    ensures CacheIndexListOf([PunctTok(Comma)] + CacheIndexTokens(y)) == Ok([OpenSlice, y])
  {
    CacheIndexListRoundTrip([y]);
    assert CacheIndexListTokens([y]) == CacheIndexTokens(y);
    assert CacheIndexListOf(CacheIndexTokens(y)) == Ok([y]);
    LeadingComma(1, CacheIndexTokens(y));
    assert Commas(1) == [PunctTok(Comma)] && OpenSlices(1) == [OpenSlice];
    assert [OpenSlice] + [y] == [OpenSlice, y];
  }

  /** A sign negates a literal but may not precede a name. */
  lemma Signs()
    ensures ParseCacheIndexValue([PunctTok(Minus), IntTok(Lit(3))]) == Ok(Parsed(CacheLit(-3), []))
    ensures ParseCacheIndexValue([PunctTok(Minus), Ident("i")]) == Err("unexpected '-' before identifier")
    ensures ParseCacheIndexValue([PunctTok(Comma)]) == Err("expected identifier or integer for cache index")
  {
    ValueRoundTrip(CacheLit(-3), []);
  }
}
