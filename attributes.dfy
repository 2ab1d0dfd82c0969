/** Variable attributes after a declaration's shape: `@init(-1.5)`, `@ref(weights)`,
    `@pattern("w.{i}")`, `@table`, `@auto_dim(i, j)`, `@fixed(i = 0)`
    (src/attributes/mod.rs, init.rs, ref_attr.rs, pattern.rs). */
module Attributes {
  import opened Results
  import opened Tokens
  import opened Ast

  /** What the attribute list of one declaration sets; each field at most once. */
  datatype ParsedAttrs = ParsedAttrs(
    init: Option<InitValue>,
    refName: Option<string>,
    pattern: Option<string>,
    table: bool,
    autoDim: seq<string>,
    fixed: seq<(string, LitInt)>)

  const NoAttrs := ParsedAttrs(None, None, None, false, [], [])

  // ---- @init(...) ----

  /** The literal inside `@init(...)`, after its optional sign. */
  function InitLiteral(negative: bool, content: seq<Token>): (r: Result<Parsed<InitValue>>)
    ensures r.Ok? ==> Size(r.value.rest) < Size(content)
    ensures r.Ok? && r.value.out.BoolInit? ==> !negative
    ensures |content| > 0 && content[0].FloatTok? ==> r == Ok(Parsed(FloatInit(content[0].flit, negative), content[1..]))
    ensures |content| > 0 && content[0].IntTok? ==> r == Ok(Parsed(IntInit(content[0].lit, negative), content[1..]))
    ensures PeekBool(content) && negative ==> r == Err("boolean init cannot be negative")
    ensures PeekBool(content) && !negative ==> r == Ok(Parsed(BoolInit(content[0].b), content[1..]))
    ensures !PeekLitFloat(content) && !PeekLitInt(content) && !PeekBool(content)
            ==> r == Err("expected numeric or boolean literal for init")
  {
    if PeekLitFloat(content) then
      var lit := TakeLitFloat(content);
      Ok(Parsed(FloatInit(lit.out, negative), lit.rest))
    else if PeekLitInt(content) then
      var lit := TakeLitInt(content);
      Ok(Parsed(IntInit(lit.out, negative), lit.rest))
    else if PeekBool(content) then
      if negative then Err("boolean init cannot be negative")
      else Ok(Parsed(BoolInit(content[0].b), content[1..]))
    else Err("expected numeric or boolean literal for init")
  }

  /** `parse_init_value`: a parenthesized, optionally signed literal and nothing else. */
  function InitValueOf(ts: seq<Token>): (r: Result<Parsed<InitValue>>)
    ensures r.Ok? ==> PeekGroup(ts, Paren) && r.value.rest == ts[1..] && Size(r.value.rest) < Size(ts)
  {
    var group :- ExpectGroup(ts, Paren);
    var (negative, content) := Sign(group.out);
    var value :- InitLiteral(negative, content);
    :- ExpectEnd(value.rest);
    Ok(Parsed(value.out, group.rest))
  }

  // ---- @ref(...) and @pattern(...) ----

  /** `parse_ref_name`: a string literal, or any identifier, keywords included. */
  function RefNameOf(ts: seq<Token>): (r: Result<Parsed<string>>)
    ensures r.Ok? ==> PeekGroup(ts, Paren) && r.value.rest == ts[1..] && Size(r.value.rest) < Size(ts)
    ensures r.Ok? ==> |ts[0].inner| == 1
    ensures r.Ok? <==> PeekGroup(ts, Paren) && |ts[0].inner| == 1
                       && (ts[0].inner[0].StrTok? || ParseAnyIdent(ts[0].inner).Ok?)
    ensures PeekGroup(ts, Paren) && |ts[0].inner| == 1 && ts[0].inner[0].StrTok?
            ==> r == Ok(Parsed(ts[0].inner[0].s, ts[1..]))
    ensures PeekGroup(ts, Paren) && |ts[0].inner| == 1 && (ts[0].inner[0].Ident? || ts[0].inner[0].Keyword?)
            ==> r == Ok(Parsed(ts[0].inner[0].name, ts[1..]))
    ensures PeekGroup(ts, Paren) && |ts[0].inner| == 1 && ts[0].inner[0].BoolTok?
            ==> r == Ok(Parsed(BoolText(ts[0].inner[0].b), ts[1..]))
  {
    var group :- ExpectGroup(ts, Paren);
    var name :- if PeekStr(group.out) then Ok(Parsed(group.out[0].s, group.out[1..]))
                else ParseAnyIdent(group.out);
    :- ExpectEnd(name.rest);
    Ok(Parsed(name.out, group.rest))
  }

  /** `parse_pattern`: a string literal only. */
  function PatternOf(ts: seq<Token>): (r: Result<Parsed<string>>)
    ensures r.Ok? <==> PeekGroup(ts, Paren) && |ts[0].inner| == 1 && ts[0].inner[0].StrTok?
    ensures r.Ok? ==> r.value == Parsed(ts[0].inner[0].s, ts[1..]) && Size(r.value.rest) < Size(ts)
  {
    var group :- ExpectGroup(ts, Paren);
    if !PeekStr(group.out) then Err("expected string literal for pattern")
    else
      :- ExpectEnd(group.out[1..]);
      Ok(Parsed(group.out[0].s, group.rest))
  }

  // ---- @auto_dim(...) and @fixed(...) ----

  /** One `name = literal` entry of `@fixed(...)`. */
  function FixedEntry(content: seq<Token>): (r: Result<Parsed<(string, LitInt)>>)
    ensures r.Ok? ==> Size(r.value.rest) < Size(content)
  {
    var name :- ExpectIdent(content);
    var afterEq :- ExpectPunct(name.rest, Eq);
    var lit :- ParseLitInt(afterEq);
    Ok(Parsed((name.out, lit.out), lit.rest))
  }

  /** The entries inside `@fixed(...)`; a comma after an entry is optional. */
  function FixedListOf(content: seq<Token>): (r: Result<seq<(string, LitInt)>>)
    ensures r.Ok? ==> (r.value == [] <==> content == [])
    decreases Size(content)
  {
    if content == [] then Ok([])
    else
      var entry :- FixedEntry(content);
      Prepend([entry.out], FixedListOf(SkipComma(entry.rest)))
  }

  /** The `@auto_dim` loop. */
  method ReadAutoDim(content0: seq<Token>) returns (r: Result<seq<string>>)
    ensures r == NameListOf(content0)
  {
    var content := content0;
    var names: seq<string> := [];
    PrependNothing(NameListOf(content));
    while content != []
      invariant NameListOf(content0) == Prepend(names, NameListOf(content))
      decreases Size(content)
    {
      var name := ExpectIdent(content);
      if name.Err? {
        return Err(name.msg);
      }
      PrependAppend(names, [name.value.out], NameListOf(SkipComma(name.value.rest)));
      names := names + [name.value.out];
      content := SkipComma(name.value.rest);
    }
    PrependDone(names);
    return Ok(names);
  }

  /** The `@fixed` loop. */
  method ReadFixed(content0: seq<Token>) returns (r: Result<seq<(string, LitInt)>>)
    ensures r == FixedListOf(content0)
  {
    var content := content0;
    var entries: seq<(string, LitInt)> := [];
    PrependNothing(FixedListOf(content));
    while content != []
      invariant FixedListOf(content0) == Prepend(entries, FixedListOf(content))
      decreases Size(content)
    {
      var entry := FixedEntry(content);
      if entry.Err? {
        return Err(entry.msg);
      }
      PrependAppend(entries, [entry.value.out], FixedListOf(SkipComma(entry.value.rest)));
      entries := entries + [entry.value.out];
      content := SkipComma(entry.value.rest);
    }
    PrependDone(entries);
    return Ok(entries);
  }

  // ---- the attribute list ----

  /** The attributes a declaration may carry. */
  datatype AttrName = InitName | RefName | PatternName | TableName | AutoDimName | FixedName

  function AttrNameText(k: AttrName): string {
    match k
    case InitName => "init"
    case RefName => "ref"
    case PatternName => "pattern"
    case TableName => "table"
    case AutoDimName => "auto_dim"
    case FixedName => "fixed"
  }

  /** Which attribute's keyword comes next, tried in the order `parse_attrs` peeks them. */
  function AttrNameOf(ts: seq<Token>): (r: Option<AttrName>)
    ensures r.Some? ==> PeekKeyword(ts, AttrNameText(r.value))
  {
    if PeekKeyword(ts, "init") then Some(InitName)
    else if PeekKeyword(ts, "ref") then Some(RefName)
    else if PeekKeyword(ts, "pattern") then Some(PatternName)
    else if PeekKeyword(ts, "table") then Some(TableName)
    else if PeekKeyword(ts, "auto_dim") then Some(AutoDimName)
    else if PeekKeyword(ts, "fixed") then Some(FixedName)
    else None
  }

  /** Whether the attribute was already given. */
  predicate Seen(acc: ParsedAttrs, k: AttrName) {
    match k
    case InitName => acc.init.Some?
    case RefName => acc.refName.Some?
    case PatternName => acc.pattern.Some?
    case TableName => acc.table
    case AutoDimName => acc.autoDim != []
    case FixedName => acc.fixed != []
  }

  /** The body of attribute `k`, after its keyword; it sets that attribute's field only. */
  function AttrBody(k: AttrName, ts: seq<Token>, acc: ParsedAttrs): (r: Result<Parsed<ParsedAttrs>>)
    ensures r.Ok? ==> Size(r.value.rest) <= Size(ts)
    ensures r.Ok? ==> Seen(r.value.out, k)
    ensures r.Ok? && k != InitName ==> r.value.out.init == acc.init
    ensures r.Ok? && k != RefName ==> r.value.out.refName == acc.refName
    ensures r.Ok? && k != PatternName ==> r.value.out.pattern == acc.pattern
    ensures r.Ok? && k != TableName ==> r.value.out.table == acc.table
    ensures r.Ok? && k != AutoDimName ==> r.value.out.autoDim == acc.autoDim
    ensures r.Ok? && k != FixedName ==> r.value.out.fixed == acc.fixed
  {
    match k
    case InitName =>
      var value :- InitValueOf(ts);
      Ok(Parsed(acc.(init := Some(value.out)), value.rest))
    case RefName =>
      var name :- RefNameOf(ts);
      Ok(Parsed(acc.(refName := Some(name.out)), name.rest))
    case PatternName =>
      var pattern :- PatternOf(ts);
      Ok(Parsed(acc.(pattern := Some(pattern.out)), pattern.rest))
    case TableName =>
      Ok(Parsed(acc.(table := true), ts))
    case AutoDimName =>
      var group :- ExpectGroup(ts, Paren);
      var names :- NameListOf(group.out);
      if names == [] then Err("@auto_dim requires at least one index")
      else Ok(Parsed(acc.(autoDim := names), group.rest))
    case FixedName =>
      var group :- ExpectGroup(ts, Paren);
      var entries :- FixedListOf(group.out);
      if entries == [] then Err("@fixed requires at least one entry")
      else Ok(Parsed(acc.(fixed := entries), group.rest))
  }

  /** One attribute after its `@`: refused when the same attribute was already given. */
  function AttrStep(ts: seq<Token>, acc: ParsedAttrs): (r: Result<Parsed<ParsedAttrs>>)
    ensures r.Ok? ==> Size(r.value.rest) < Size(ts)
    ensures r.Ok? <==> AttrNameOf(ts).Some? && !Seen(acc, AttrNameOf(ts).value)
                       && AttrBody(AttrNameOf(ts).value, ts[1..], acc).Ok?
    ensures AttrNameOf(ts).None? ==> r == Err("unsupported attribute")
    ensures AttrNameOf(ts).Some? && Seen(acc, AttrNameOf(ts).value)
            ==> r == Err("duplicate @" + AttrNameText(AttrNameOf(ts).value) + " attribute")
  {
    match AttrNameOf(ts)
    case None => Err("unsupported attribute")
    case Some(k) =>
      if Seen(acc, k) then Err("duplicate @" + AttrNameText(k) + " attribute")
      else
        SizeFirst(ts);
        AttrBody(k, ts[1..], acc)
  }

  /** `parse_attrs` from a given state: attributes are read while a `@` follows. */
  function AttrsOf(ts: seq<Token>, acc: ParsedAttrs): (r: Result<Parsed<ParsedAttrs>>)
    ensures r.Ok? ==> Size(r.value.rest) <= Size(ts) && !PeekPunct(r.value.rest, At)
    decreases Size(ts)
  {
    if !PeekPunct(ts, At) then Ok(Parsed(acc, ts))
    else
      SizeFirst(ts);
      var step :- AttrStep(ts[1..], acc);
      AttrsOf(step.rest, step.out)
  }

  /** `parse_attrs`. */
  method ParseAttrs(ts: seq<Token>) returns (r: Result<Parsed<ParsedAttrs>>)
    ensures r == AttrsOf(ts, NoAttrs)
  {
    var acc := NoAttrs;
    var rest := ts;
    while PeekPunct(rest, At)
      invariant AttrsOf(ts, NoAttrs) == AttrsOf(rest, acc)
      decreases Size(rest)
    {
      SizeFirst(rest);
      var after := rest[1..];
      var name := AttrNameOf(after);
      if name.None? {
        return Err("unsupported attribute");
      }
      var k := name.value;
      if Seen(acc, k) {
        return Err("duplicate @" + AttrNameText(k) + " attribute");
      }
      SizeFirst(after);
      if k == AutoDimName || k == FixedName {
        var group := ExpectGroup(after[1..], Paren);
        if group.Err? {
          return Err(group.msg);
        }
        var content := group.value.out;
        if k == AutoDimName {
          var names := ReadAutoDim(content);
          if names.Err? {
            return Err(names.msg);
          }
          if names.value == [] {
            return Err("@auto_dim requires at least one index");
          }
          acc := acc.(autoDim := names.value);
        } else {
          var entries := ReadFixed(content);
          if entries.Err? {
            return Err(entries.msg);
          }
          if entries.value == [] {
            return Err("@fixed requires at least one entry");
          }
          acc := acc.(fixed := entries.value);
        }
        rest := group.value.rest;
      } else {
        var body := AttrBody(k, after[1..], acc);
        if body.Err? {
          return Err(body.msg);
        }
        acc := body.value.out;
        rest := body.value.rest;
      }
    }
    return Ok(Parsed(acc, rest));
  }

  /** The token that spells attribute `k`; `ref` is a Rust keyword. */
  function AttrNameToken(k: AttrName): Token {
    if k == RefName then Keyword("ref") else Ident(AttrNameText(k))
  }

  /** Each attribute's own spelling selects it, and no earlier one. */
  lemma AttrNameSpelled(k: AttrName, more: seq<Token>)
    ensures AttrNameOf([AttrNameToken(k)] + more) == Some(k)
  {
    var ts := [AttrNameToken(k)] + more;
    assert ts[0] == AttrNameToken(k);
    match k
    case InitName =>
    case RefName =>
      assert !PeekKeyword(ts, "init");
    case PatternName =>
      assert !PeekKeyword(ts, "init") && !PeekKeyword(ts, "ref");
    case TableName =>
      assert !PeekKeyword(ts, "init") && !PeekKeyword(ts, "ref") && !PeekKeyword(ts, "pattern");
    case AutoDimName =>
      assert !PeekKeyword(ts, "init") && !PeekKeyword(ts, "ref") && !PeekKeyword(ts, "pattern");
      assert !PeekKeyword(ts, "table");
    case FixedName =>
      assert !PeekKeyword(ts, "init") && !PeekKeyword(ts, "ref") && !PeekKeyword(ts, "pattern");
      assert !PeekKeyword(ts, "table") && !PeekKeyword(ts, "auto_dim");
  }

  /** After `@`, the attribute is dispatched on its name. */
  lemma AttrsAt(k: AttrName, more: seq<Token>, acc: ParsedAttrs)
    ensures AttrsOf([PunctTok(At), AttrNameToken(k)] + more, acc)
         == (if Seen(acc, k) then Err("duplicate @" + AttrNameText(k) + " attribute")
             else match AttrBody(k, more, acc)
                  case Ok(step) => AttrsOf(step.rest, step.out)
                  case Err(msg) => Err(msg))
  {
    var ts := [PunctTok(At), AttrNameToken(k)] + more;
    assert ts[1..] == [AttrNameToken(k)] + more;
    assert ts[1..][1..] == more;
    AttrNameSpelled(k, more);
  }

  // ---- what a list keeps ----

  /** Reading more attributes never changes one that is already set. */
  lemma {:induction false} AttrsKeep(ts: seq<Token>, acc: ParsedAttrs)
    requires AttrsOf(ts, acc).Ok?
    ensures acc.init.Some? ==> AttrsOf(ts, acc).value.out.init == acc.init
    ensures acc.refName.Some? ==> AttrsOf(ts, acc).value.out.refName == acc.refName
    ensures acc.pattern.Some? ==> AttrsOf(ts, acc).value.out.pattern == acc.pattern
    ensures acc.table ==> AttrsOf(ts, acc).value.out.table
    ensures acc.autoDim != [] ==> AttrsOf(ts, acc).value.out.autoDim == acc.autoDim
    ensures acc.fixed != [] ==> AttrsOf(ts, acc).value.out.fixed == acc.fixed
    decreases Size(ts)
  {
    if PeekPunct(ts, At) {
      SizeFirst(ts);
      var step := AttrStep(ts[1..], acc).value;
      AttrsKeep(step.rest, step.out);
    }
  }

  /** A second attribute of a kind already given is refused, whatever follows it. */
  lemma DuplicateRejected(k: AttrName, acc: ParsedAttrs, more: seq<Token>)
    requires Seen(acc, k)
    ensures AttrsOf([PunctTok(At), AttrNameToken(k)] + more, acc)
         == Err("duplicate @" + AttrNameText(k) + " attribute")
  {
    AttrsAt(k, more, acc);
  }

  // ---- printing, and the round trip ----

  function InitValueTokens(v: InitValue): seq<Token> {
    match v
    case FloatInit(lit, negative) => (if negative then [PunctTok(Minus)] else []) + [FloatTok(lit)]
    case IntInit(lit, negative) => (if negative then [PunctTok(Minus)] else []) + [IntTok(lit)]
    case BoolInit(b) => [BoolTok(b)]
  }

  function FixedEntryTokens(e: (string, LitInt)): seq<Token> {
    [Ident(e.0), PunctTok(Eq)] + LitTokens(e.1)
  }

  function FixedListTokens(entries: seq<(string, LitInt)>): seq<Token> {
    if entries == [] then []
    else if |entries| == 1 then FixedEntryTokens(entries[0])
    else FixedEntryTokens(entries[0]) + [PunctTok(Comma)] + FixedListTokens(entries[1..])
  }

  function InitTokens(o: Option<InitValue>): seq<Token> {
    if o.None? then [] else [PunctTok(At), Ident("init"), Group(Paren, InitValueTokens(o.value))]
  }

  function RefTokens(o: Option<string>): seq<Token> {
    if o.None? then [] else [PunctTok(At), Keyword("ref"), Group(Paren, [StrTok(o.value)])]
  }

  function PatternTokens(o: Option<string>): seq<Token> {
    if o.None? then [] else [PunctTok(At), Ident("pattern"), Group(Paren, [StrTok(o.value)])]
  }

  function TableTokens(table: bool): seq<Token> {
    if table then [PunctTok(At), Ident("table")] else []
  }

  function AutoDimTokens(names: seq<string>): seq<Token> {
    if names == [] then [] else [PunctTok(At), Ident("auto_dim"), Group(Paren, NameListTokens(names))]
  }

  function FixedTokens(entries: seq<(string, LitInt)>): seq<Token> {
    if entries == [] then [] else [PunctTok(At), Ident("fixed"), Group(Paren, FixedListTokens(entries))]
  }

  /** Every attribute that is set, in a fixed order. */
  function AttrsTokens(a: ParsedAttrs): seq<Token> {
    InitTokens(a.init) + RefTokens(a.refName) + PatternTokens(a.pattern)
      + TableTokens(a.table) + AutoDimTokens(a.autoDim) + FixedTokens(a.fixed)
  }

  /** Every init value is read back, the sign flag being the optional `-` and the literal
      possibly syn's negative literal itself (`@init(- -1)`). */
  lemma InitValueRoundTrip(v: InitValue, rest: seq<Token>)
    ensures InitValueOf([Group(Paren, InitValueTokens(v))] + rest) == Ok(Parsed(v, rest))
  {
    var ts := [Group(Paren, InitValueTokens(v))] + rest;
    assert ts[1..] == rest;
    var content := InitValueTokens(v);
    match v
    case FloatInit(lit, negative) =>
      var after := [FloatTok(lit)];
      assert Sign(content).1 == after;
      assert after[1..] == [];
      assert InitLiteral(negative, after) == Ok(Parsed(v, []));
    case IntInit(lit, negative) =>
      var after := [IntTok(lit)];
      assert Sign(content).1 == after;
      assert after[1..] == [];
      assert InitLiteral(negative, after) == Ok(Parsed(v, []));
    case BoolInit(b) =>
      assert content[1..] == [];
  }

  lemma FixedEntryRoundTrip(e: (string, LitInt), rest: seq<Token>)
    ensures FixedEntry(FixedEntryTokens(e) + rest) == Ok(Parsed(e, rest))
  {
    var ts := FixedEntryTokens(e) + rest;
    assert ts[1..] == [PunctTok(Eq)] + (LitTokens(e.1) + rest);
    assert ts[1..][1..] == LitTokens(e.1) + rest;
    LitRoundTrip(e.1, rest);
  }

  lemma {:induction false} FixedListRoundTrip(entries: seq<(string, LitInt)>)
    ensures FixedListOf(FixedListTokens(entries)) == Ok(entries)
    decreases |entries|
  {
    if |entries| == 1 {
      FixedEntryRoundTrip(entries[0], []);
      assert FixedEntryTokens(entries[0]) + [] == FixedListTokens(entries);
      PrependDone([entries[0]]);
      assert [entries[0]] == entries;
    } else if |entries| > 1 {
      var rest := [PunctTok(Comma)] + FixedListTokens(entries[1..]);
      FixedEntryRoundTrip(entries[0], rest);
      assert FixedEntryTokens(entries[0]) + rest == FixedListTokens(entries);
      assert rest[1..] == FixedListTokens(entries[1..]);
      FixedListRoundTrip(entries[1..]);
      assert [entries[0]] + entries[1..] == entries;
    }
  }

  lemma InitStep(o: Option<InitValue>, more: seq<Token>, acc: ParsedAttrs)
    requires acc.init.None?
    ensures AttrsOf(InitTokens(o) + more, acc) == AttrsOf(more, acc.(init := o))
  {
    if o.Some? {
      var group := [Group(Paren, InitValueTokens(o.value))];
      assert InitTokens(o) + more == [PunctTok(At), AttrNameToken(InitName)] + (group + more);
      AttrsAt(InitName, group + more, acc);
      InitValueRoundTrip(o.value, more);
    } else {
      assert InitTokens(o) + more == more;
    }
  }

  lemma RefStep(o: Option<string>, more: seq<Token>, acc: ParsedAttrs)
    requires acc.refName.None?
    ensures AttrsOf(RefTokens(o) + more, acc) == AttrsOf(more, acc.(refName := o))
  {
    if o.Some? {
      var group := [Group(Paren, [StrTok(o.value)])];
      assert RefTokens(o) + more == [PunctTok(At), AttrNameToken(RefName)] + (group + more);
      AttrsAt(RefName, group + more, acc);
      assert (group + more)[1..] == more;
      assert [StrTok(o.value)][1..] == [];
    } else {
      assert RefTokens(o) + more == more;
    }
  }

  lemma PatternStep(o: Option<string>, more: seq<Token>, acc: ParsedAttrs)
    requires acc.pattern.None?
    ensures AttrsOf(PatternTokens(o) + more, acc) == AttrsOf(more, acc.(pattern := o))
  {
    if o.Some? {
      var group := [Group(Paren, [StrTok(o.value)])];
      assert PatternTokens(o) + more == [PunctTok(At), AttrNameToken(PatternName)] + (group + more);
      AttrsAt(PatternName, group + more, acc);
      assert (group + more)[1..] == more;
    } else {
      assert PatternTokens(o) + more == more;
    }
  }

  lemma TableStep(table: bool, more: seq<Token>, acc: ParsedAttrs)
    requires !acc.table
    ensures AttrsOf(TableTokens(table) + more, acc) == AttrsOf(more, acc.(table := table))
  {
    if table {
      assert TableTokens(table) + more == [PunctTok(At), AttrNameToken(TableName)] + more;
      AttrsAt(TableName, more, acc);
    } else {
      assert TableTokens(table) + more == more;
      assert acc.(table := table) == acc;
    }
  }

  lemma AutoDimStep(names: seq<string>, more: seq<Token>, acc: ParsedAttrs)
    requires acc.autoDim == []
    ensures AttrsOf(AutoDimTokens(names) + more, acc) == AttrsOf(more, acc.(autoDim := names))
  {
    if names != [] {
      var group := [Group(Paren, NameListTokens(names))];
      assert AutoDimTokens(names) + more == [PunctTok(At), AttrNameToken(AutoDimName)] + (group + more);
      AttrsAt(AutoDimName, group + more, acc);
      assert (group + more)[1..] == more;
      NamesRoundTrip(names);
      assert AttrBody(AutoDimName, group + more, acc) == Ok(Parsed(acc.(autoDim := names), more));
    } else {
      assert AutoDimTokens(names) + more == more;
      assert acc.(autoDim := names) == acc;
    }
  }

  lemma FixedStep(entries: seq<(string, LitInt)>, more: seq<Token>, acc: ParsedAttrs)
    requires acc.fixed == []
    ensures AttrsOf(FixedTokens(entries) + more, acc) == AttrsOf(more, acc.(fixed := entries))
  {
    if entries != [] {
      var group := [Group(Paren, FixedListTokens(entries))];
      assert FixedTokens(entries) + more == [PunctTok(At), AttrNameToken(FixedName)] + (group + more);
      AttrsAt(FixedName, group + more, acc);
      assert (group + more)[1..] == more;
      FixedListRoundTrip(entries);
      assert AttrBody(FixedName, group + more, acc) == Ok(Parsed(acc.(fixed := entries), more));
    } else {
      assert FixedTokens(entries) + more == more;
      assert acc.(fixed := entries) == acc;
    }
  }

  lemma AttrsTokensNest(a: ParsedAttrs, rest: seq<Token>)
    ensures AttrsTokens(a) + rest
         == InitTokens(a.init) + (RefTokens(a.refName) + (PatternTokens(a.pattern) + (TableTokens(a.table)
            + (AutoDimTokens(a.autoDim) + (FixedTokens(a.fixed) + rest)))))
  {
    var t1, t2, t3 := InitTokens(a.init), RefTokens(a.refName), PatternTokens(a.pattern);
    var t4, t5, t6 := TableTokens(a.table), AutoDimTokens(a.autoDim), FixedTokens(a.fixed);
    calc {
      AttrsTokens(a) + rest;
      ((((t1 + t2) + t3) + t4) + t5) + (t6 + rest);
      (((t1 + t2) + t3) + t4) + (t5 + (t6 + rest));
      ((t1 + t2) + t3) + (t4 + (t5 + (t6 + rest)));
      (t1 + t2) + (t3 + (t4 + (t5 + (t6 + rest))));
      t1 + (t2 + (t3 + (t4 + (t5 + (t6 + rest)))));
    }
  }

  /** Printing a declaration's attributes and reading them back gives the same
      attributes, provided no further `@` follows. */
  lemma AttrsRoundTrip(a: ParsedAttrs, rest: seq<Token>)
    requires !PeekPunct(rest, At)
    ensures AttrsOf(AttrsTokens(a) + rest, NoAttrs) == Ok(Parsed(a, rest))
  {
    var r5 := FixedTokens(a.fixed) + rest;
    var r4 := AutoDimTokens(a.autoDim) + r5;
    var r3 := TableTokens(a.table) + r4;
    var r2 := PatternTokens(a.pattern) + r3;
    var r1 := RefTokens(a.refName) + r2;
    AttrsTokensNest(a, rest);
    var s1 := NoAttrs.(init := a.init);
    var s2 := s1.(refName := a.refName);
    var s3 := s2.(pattern := a.pattern);
    var s4 := s3.(table := a.table);
    var s5 := s4.(autoDim := a.autoDim);
    InitStep(a.init, r1, NoAttrs);
    RefStep(a.refName, r2, s1);
    PatternStep(a.pattern, r3, s2);
    TableStep(a.table, r4, s3);
    AutoDimStep(a.autoDim, r5, s4);
    FixedStep(a.fixed, rest, s5);
    assert s5.(fixed := a.fixed) == a;
    assert AttrsOf(rest, a) == Ok(Parsed(a, rest));
  }

  // ---- edge cases ----

  /** `@auto_dim()` is refused. */
  lemma EmptyAutoDimRejected(acc: ParsedAttrs, more: seq<Token>)
    requires acc.autoDim == []
    ensures AttrsOf([PunctTok(At), Ident("auto_dim"), Group(Paren, [])] + more, acc)
         == Err("@auto_dim requires at least one index")
  {
    var empty := [Group(Paren, [])];
    assert [PunctTok(At), Ident("auto_dim"), Group(Paren, [])] + more
        == [PunctTok(At), AttrNameToken(AutoDimName)] + (empty + more);
    AttrsAt(AutoDimName, empty + more, acc);
    assert ExpectGroup(empty + more, Paren) == Ok(Parsed([], more));
  }

  /** `@fixed()` is refused. */
  lemma EmptyFixedRejected(acc: ParsedAttrs, more: seq<Token>)
    requires acc.fixed == []
    ensures AttrsOf([PunctTok(At), Ident("fixed"), Group(Paren, [])] + more, acc)
         == Err("@fixed requires at least one entry")
  {
    var empty := [Group(Paren, [])];
    assert [PunctTok(At), Ident("fixed"), Group(Paren, [])] + more
        == [PunctTok(At), AttrNameToken(FixedName)] + (empty + more);
    AttrsAt(FixedName, empty + more, acc);
    assert ExpectGroup(empty + more, Paren) == Ok(Parsed([], more));
  }

  /** An attribute name outside the six is refused. */
  lemma UnknownRejected(acc: ParsedAttrs, more: seq<Token>)
    ensures AttrsOf([PunctTok(At), Ident("shape")] + more, acc) == Err("unsupported attribute")
  {
    var shape := [Ident("shape")] + more;
    assert ([PunctTok(At), Ident("shape")] + more)[1..] == shape;
    assert !PeekKeyword(shape, "init") && !PeekKeyword(shape, "ref") && !PeekKeyword(shape, "pattern");
    assert !PeekKeyword(shape, "table") && !PeekKeyword(shape, "auto_dim") && !PeekKeyword(shape, "fixed");
  }

  /** `@init(-true)` is refused, `@init()` has no literal, and `@ref(self)` names `self`. */
  lemma InitAndRefEdges(rest: seq<Token>)
    ensures InitValueOf([Group(Paren, [PunctTok(Minus), BoolTok(true)])] + rest)
         == Err("boolean init cannot be negative")
    ensures InitValueOf([Group(Paren, [])] + rest) == Err("expected numeric or boolean literal for init")
    ensures RefNameOf([Group(Paren, [Keyword("self")])] + rest) == Ok(Parsed("self", rest))
  {
    assert [PunctTok(Minus), BoolTok(true)][1..] == [BoolTok(true)];
    assert ([Group(Paren, [Keyword("self")])] + rest)[1..] == rest;
  }
}
