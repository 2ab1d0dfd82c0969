/** The token-level view of the DSL's input: what the macro receives from the
    Rust tokenizer, abstracted to the few lexical classes the parsers peek at.
    Delimited groups are trees, so a token sequence is a finite forest.

    Lexing conventions of this model:
    - `true` and `false` are BoolTok, never Ident;
    - the other Rust keywords (`loop`, `ref`, `yield`, `self`, `_`, ...) are Keyword
      tokens: syn's `Ident` parser refuses them and `Ident::parse_any` accepts them;
      every other word, the DSL's own keywords (`block`, `op`, ...) included, is Ident;
    - `..` is one DotDot token and `>>` one Shr token (a joint pair of `>`);
    - the tokenizer writes literals without a sign: `-5` is Minus then IntTok.
    syn's literal parsers nevertheless read a `-` immediately followed by an
    unsigned numeric literal as ONE negative literal; ParseLitInt and
    ParseLitFloat reproduce that. */
module Tokens {
  import opened Results

  /** An integer literal as syn holds it: sign, magnitude and digits as written. */
  datatype LitInt = LitInt(negative: bool, magnitude: nat, digits: string) {
    function Value(): int {
      if negative then -(magnitude as int) else magnitude
    }

    /** The literal's text (`Display` of syn's LitInt). */
    function Text(): string {
      (if negative then "-" else "") + digits
    }
  }

  /** A floating-point literal: sign and digits as written; its value is not interpreted. */
  datatype LitFloat = LitFloat(negative: bool, digits: string)

  datatype Punct = Comma | Semi | Colon | Eq | Star | Minus | DotDot | Shr | Gt | At | Dot

  datatype Delim = Paren | Bracket | Brace

  datatype Token =
    | Ident(name: string)
    | Keyword(name: string)
    | IntTok(lit: LitInt)
    | FloatTok(flit: LitFloat)
    | BoolTok(b: bool)
    | StrTok(s: string)
    | PunctTok(p: Punct)
    | Group(delim: Delim, inner: seq<Token>)

  /** A successful parse: the value read and the tokens left after it. */
  datatype Parsed<+T> = Parsed(out: T, rest: seq<Token>)

  const I64Max: int := 0x7fff_ffff_ffff_ffff
  const I64Min: int := -0x8000_0000_0000_0000
  const I128Max: int := 0x7fff_ffff_ffff_ffff_ffff_ffff_ffff_ffff
  const I128Min: int := -0x8000_0000_0000_0000_0000_0000_0000_0000
  const UsizeMax: int := 0xffff_ffff_ffff_ffff

  /** Rust's i64. */
  type Int64 = x: int | -0x8000_0000_0000_0000 <= x <= 0x7fff_ffff_ffff_ffff

  // ---- size of a token forest: every parser makes it shrink ----

  function Size(ts: seq<Token>): nat
    decreases ts, 1
  {
    if ts == [] then 0 else TokenSize(ts[0]) + Size(ts[1..])
  }

  function TokenSize(t: Token): nat
    decreases t, 0
  {
    if t.Group? then 1 + Size(t.inner) else 1
  }

  lemma SizeFirst(ts: seq<Token>)
    requires |ts| > 0
    ensures Size(ts[1..]) < Size(ts)
    ensures ts[0].Group? ==> Size(ts[0].inner) < Size(ts)
  {
  }

  // ---- lookahead ----

  predicate PeekIdent(ts: seq<Token>) {
    |ts| > 0 && ts[0].Ident?
  }

  /** A custom keyword (`block`, `op`, ...) or a Rust keyword token (`loop`, `ref`, ...). */
  predicate PeekKeyword(ts: seq<Token>, kw: string) {
    |ts| > 0 && (ts[0].Ident? || ts[0].Keyword?) && ts[0].name == kw
  }

  predicate PeekPunct(ts: seq<Token>, p: Punct) {
    |ts| > 0 && ts[0] == PunctTok(p)
  }

  predicate PeekGroup(ts: seq<Token>, d: Delim) {
    |ts| > 0 && ts[0].Group? && ts[0].delim == d
  }

  predicate PeekBool(ts: seq<Token>) {
    |ts| > 0 && ts[0].BoolTok?
  }

  predicate PeekStr(ts: seq<Token>) {
    |ts| > 0 && ts[0].StrTok?
  }

  /** `-` directly followed by an unsigned integer literal: syn's negative literal. */
  predicate NegatedInt(ts: seq<Token>) {
    |ts| > 1 && ts[0] == PunctTok(Minus) && ts[1].IntTok? && !ts[1].lit.negative
  }

  predicate NegatedFloat(ts: seq<Token>) {
    |ts| > 1 && ts[0] == PunctTok(Minus) && ts[1].FloatTok? && !ts[1].flit.negative
  }

  /** `peek(LitInt)`. */
  predicate PeekLitInt(ts: seq<Token>) {
    (|ts| > 0 && ts[0].IntTok?) || NegatedInt(ts)
  }

  /** `peek(LitFloat)`. */
  predicate PeekLitFloat(ts: seq<Token>) {
    (|ts| > 0 && ts[0].FloatTok?) || NegatedFloat(ts)
  }

  // ---- consuming tokens ----

  function PunctText(p: Punct): string {
    match p
    case Comma => ","
    case Semi => ";"
    case Colon => ":"
    case Eq => "="
    case Star => "*"
    case Minus => "-"
    case DotDot => ".."
    case Shr => ">>"
    case Gt => ">"
    case At => "@"
    case Dot => "."
  }

  function ExpectPunct(ts: seq<Token>, p: Punct): (r: Result<seq<Token>>)
    ensures r.Ok? <==> PeekPunct(ts, p)
    ensures r.Ok? ==> r.value == ts[1..] && Size(r.value) < Size(ts)
  {
    if PeekPunct(ts, p) then Ok(ts[1..]) else Err("expected `" + PunctText(p) + "`")
  }

  /** A `-` sign, if there is one, and the tokens after it. */
  function Sign(ts: seq<Token>): (r: (bool, seq<Token>))
    ensures r.0 <==> PeekPunct(ts, Minus)
    ensures r.1 == if r.0 then ts[1..] else ts
    ensures Size(r.1) <= Size(ts)
  {
    if PeekPunct(ts, Minus) then
      SizeFirst(ts);
      (true, ts[1..])
    else (false, ts)
  }

  /** Skips one `,` if there is one. */
  function SkipComma(ts: seq<Token>): (r: seq<Token>)
    ensures Size(r) <= Size(ts)
    ensures r == if PeekPunct(ts, Comma) then ts[1..] else ts
  {
    if PeekPunct(ts, Comma) then ts[1..] else ts
  }

  /** One `>`; taken from a `>>` pair it leaves the second `>` behind. */
  function ExpectGt(ts: seq<Token>): (r: Result<seq<Token>>)
    ensures r.Ok? <==> PeekPunct(ts, Gt) || PeekPunct(ts, Shr)
    ensures r.Ok? && PeekPunct(ts, Gt) ==> r.value == ts[1..]
    ensures r.Ok? && PeekPunct(ts, Shr) ==> r.value == [PunctTok(Gt)] + ts[1..]
    ensures r.Ok? ==> Size(r.value) <= Size(ts)
  {
    if PeekPunct(ts, Gt) then Ok(ts[1..])
    else if PeekPunct(ts, Shr) then
      assert ([PunctTok(Gt)] + ts[1..])[1..] == ts[1..];
      Ok([PunctTok(Gt)] + ts[1..])
    else Err("expected `>`")
  }

  function ExpectKeyword(ts: seq<Token>, kw: string): (r: Result<seq<Token>>)
    ensures r.Ok? <==> PeekKeyword(ts, kw)
    ensures r.Ok? ==> r.value == ts[1..] && Size(r.value) < Size(ts)
  {
    if PeekKeyword(ts, kw) then Ok(ts[1..]) else Err("expected `" + kw + "`")
  }

  function BoolText(b: bool): string {
    if b then "true" else "false"
  }

  /** syn's `Ident` parser: any identifier except a Rust keyword. */
  function ExpectIdent(ts: seq<Token>): (r: Result<Parsed<string>>)
    ensures r.Ok? <==> PeekIdent(ts)
    ensures r.Ok? ==> r.value == Parsed(ts[0].name, ts[1..]) && Size(r.value.rest) < Size(ts)
  {
    if PeekIdent(ts) then Ok(Parsed(ts[0].name, ts[1..]))
    else if |ts| > 0 && ts[0].Keyword? then Err("expected identifier, found keyword `" + ts[0].name + "`")
    else if PeekBool(ts) then Err("expected identifier, found keyword `" + BoolText(ts[0].b) + "`")
    else Err("expected identifier")
  }

  /** syn's `Ident::parse_any`: keywords are accepted too. */
  function ParseAnyIdent(ts: seq<Token>): (r: Result<Parsed<string>>)
    ensures r.Ok? <==> |ts| > 0 && (ts[0].Ident? || ts[0].Keyword? || ts[0].BoolTok?)
    ensures r.Ok? ==> r.value.rest == ts[1..] && Size(r.value.rest) < Size(ts)
  {
    if |ts| > 0 && (ts[0].Ident? || ts[0].Keyword?) then Ok(Parsed(ts[0].name, ts[1..]))
    else if PeekBool(ts) then Ok(Parsed(BoolText(ts[0].b), ts[1..]))
    else Err("expected identifier")
  }

  /** `LitInt::parse`, negative literals included. */
  function ParseLitInt(ts: seq<Token>): (r: Result<Parsed<LitInt>>)
    ensures r.Ok? <==> PeekLitInt(ts)
    ensures r.Ok? ==> Size(r.value.rest) < Size(ts)
    ensures r.Ok? && !NegatedInt(ts) ==> r.value == Parsed(ts[0].lit, ts[1..])
  {
    if |ts| > 0 && ts[0].IntTok? then Ok(Parsed(ts[0].lit, ts[1..]))
    else if NegatedInt(ts) then
      SizeFirst(ts);
      SizeFirst(ts[1..]);
      assert ts[1..][1..] == ts[2..];
      Ok(Parsed(LitInt(true, ts[1].lit.magnitude, ts[1].lit.digits), ts[2..]))
    else Err("expected integer literal")
  }

  /** `LitFloat::parse`, negative literals included. */
  function ParseLitFloat(ts: seq<Token>): (r: Result<Parsed<LitFloat>>)
    ensures r.Ok? <==> PeekLitFloat(ts)
    ensures r.Ok? ==> Size(r.value.rest) < Size(ts)
  {
    if |ts| > 0 && ts[0].FloatTok? then Ok(Parsed(ts[0].flit, ts[1..]))
    else if NegatedFloat(ts) then
      SizeFirst(ts);
      SizeFirst(ts[1..]);
      assert ts[1..][1..] == ts[2..];
      Ok(Parsed(LitFloat(true, ts[1].flit.digits), ts[2..]))
    else Err("expected floating point literal")
  }

  /** The literal after a successful `peek(LitInt)`. */
  function TakeLitInt(ts: seq<Token>): (p: Parsed<LitInt>)
    requires PeekLitInt(ts)
    ensures ParseLitInt(ts) == Ok(p) && Size(p.rest) < Size(ts)
  {
    ParseLitInt(ts).value
  }

  /** The literal after a successful `peek(LitFloat)`. */
  function TakeLitFloat(ts: seq<Token>): (p: Parsed<LitFloat>)
    requires PeekLitFloat(ts)
    ensures ParseLitFloat(ts) == Ok(p) && Size(p.rest) < Size(ts)
  {
    ParseLitFloat(ts).value
  }

  function DelimText(d: Delim): string {
    match d
    case Paren => "parentheses"
    case Bracket => "square brackets"
    case Brace => "curly braces"
  }

  /** `parenthesized!` / `bracketed!` / `braced!`: the group's content and what follows it. */
  function ExpectGroup(ts: seq<Token>, d: Delim): (r: Result<Parsed<seq<Token>>>)
    ensures r.Ok? <==> PeekGroup(ts, d)
    ensures r.Ok? ==> r.value == Parsed(ts[0].inner, ts[1..])
    ensures r.Ok? ==> Size(r.value.out) < Size(ts) && Size(r.value.rest) < Size(ts)
  {
    if PeekGroup(ts, d) then Ok(Parsed(ts[0].inner, ts[1..])) else Err("expected " + DelimText(d))
  }

  /** Tokens left inside a delimited group are an error. */
  function ExpectEnd(content: seq<Token>): (r: Outcome)
    ensures r.Pass? <==> content == []
  {
    if content == [] then Pass else Fail("unexpected token")
  }

  // ---- `base10_parse` into Rust integer types, and Rust's checked negation ----

  /** Into `usize`: a negative literal has an invalid digit (`-`), even `-0`. */
  function ToUsize(lit: LitInt): (r: Result<nat>)
    ensures r.Ok? <==> !lit.negative && lit.magnitude <= UsizeMax
    ensures r.Ok? ==> r.value == lit.Value()
  {
    if lit.negative then Err("invalid digit found in string")
    else if lit.magnitude > UsizeMax then Err("number too large to fit in target type")
    else Ok(lit.magnitude)
  }

  /** Into a signed type whose range is `lo..=hi`. */
  function ToSigned(lit: LitInt, lo: int, hi: int): (r: Result<int>)
    ensures r.Ok? <==> lo <= lit.Value() <= hi
    ensures r.Ok? ==> r.value == lit.Value()
  {
    if lit.Value() > hi then Err("number too large to fit in target type")
    else if lit.Value() < lo then Err("number too small to fit in target type")
    else Ok(lit.Value())
  }

  function ToI64(lit: LitInt): (r: Result<Int64>)
    ensures r.Ok? <==> I64Min <= lit.Value() <= I64Max
    ensures r.Ok? ==> r.value == lit.Value()
  {
    var v :- ToSigned(lit, I64Min, I64Max);
    Ok(v)
  }

  /** `-v` on a signed type whose range is `lo..=hi`: overflows only for the minimum. */
  function Negate(v: int, lo: int, hi: int): (r: Result<int>)
    requires lo <= v <= hi && lo == -hi - 1
    ensures r.Ok? <==> v != lo
    ensures r.Ok? ==> r.value == -v && lo <= r.value <= hi
  {
    if v == lo then Err("attempt to negate with overflow") else Ok(-v)
  }

  /** An i64 read as `-`? literal: the literal is parsed, then negated if signed. */
  function SignedI64(lit: LitInt, negative: bool): (r: Result<Int64>)
    ensures r.Ok? ==> r.value == if negative then -lit.Value() else lit.Value()
    ensures r.Ok? <==> I64Min <= lit.Value() <= I64Max && !(negative && lit.Value() == I64Min)
  {
    var v :- ToI64(lit);
    if negative then
      var n :- Negate(v, I64Min, I64Max);
      Ok(n)
    else Ok(v)
  }

  // ---- printing, for round-trip statements ----

  function DigitText(d: nat): string
    requires d < 10
  {
    ["0123456789"[d]]
  }

  function DecimalText(n: nat): string
    decreases n
  {
    if n < 10 then DigitText(n) else DecimalText(n / 10) + DigitText(n % 10)
  }

  /** The unsigned integer literal a printer writes for `n`. */
  function Lit(n: nat): LitInt {
    LitInt(false, n, DecimalText(n))
  }

  /** Names separated by commas, as printed in `@auto_dim(...)`, binders and `yield` lists. */
  function NameListTokens(names: seq<string>): seq<Token> {
    if names == [] then []
    else if |names| == 1 then [Ident(names[0])]
    else [Ident(names[0]), PunctTok(Comma)] + NameListTokens(names[1..])
  }

  /** A list of names, each optionally followed by a comma, as prefix binders `(i, j)`
      and `@auto_dim(i, j)` both read it. */
  function NameListOf(content: seq<Token>): (r: Result<seq<string>>)
    ensures r.Ok? ==> (r.value == [] <==> content == [])
    decreases Size(content)
  {
    if content == [] then Ok([])
    else
      var name :- ExpectIdent(content);
      Prepend([name.out], NameListOf(SkipComma(name.rest)))
  }

  /** A printed name list is read back unchanged. */
  lemma {:induction false} NamesRoundTrip(names: seq<string>)
    ensures NameListOf(NameListTokens(names)) == Ok(names)
    decreases |names|
  {
    var ts := NameListTokens(names);
    if |names| == 1 {
      assert ts[1..] == [];
      assert [names[0]] + [] == names;
    } else if |names| > 1 {
      assert ts[1..] == [PunctTok(Comma)] + NameListTokens(names[1..]);
      assert SkipComma(ts[1..]) == NameListTokens(names[1..]);
      NamesRoundTrip(names[1..]);
      assert [names[0]] + names[1..] == names;
    }
  }

  /** The tokens a printer writes for an integer value: `-` and the magnitude when negative. */
  function IntTokens(v: int): seq<Token> {
    if v < 0 then [PunctTok(Minus), IntTok(Lit(-v))] else [IntTok(Lit(v))]
  }

  /** The tokens that spell a literal: a negative one is `-` before its magnitude. */
  function LitTokens(lit: LitInt): seq<Token> {
    if lit.negative then [PunctTok(Minus), IntTok(LitInt(false, lit.magnitude, lit.digits))]
    else [IntTok(lit)]
  }

  lemma LitRoundTrip(lit: LitInt, rest: seq<Token>)
    ensures PeekLitInt(LitTokens(lit) + rest)
    ensures ParseLitInt(LitTokens(lit) + rest) == Ok(Parsed(lit, rest))
  {
    var ts := LitTokens(lit) + rest;
    if lit.negative {
      assert ts[2..] == rest;
    } else {
      assert ts[1..] == rest;
    }
  }
}
