/** Shape lowering: each dimension becomes the string the runtime reads back,
    `B`, `128` or `B*D` (src/codegen/dims.rs). */
module DimsCodegen {
  import opened Results
  import opened Tokens
  import opened Ast

  /** `dim_atom_string`: a name, or a literal's text. */
  function DimAtomString(a: DimAtom): string {
    match a
    case AtomIdent(name) => name
    case AtomLit(lit) => lit.Text()
  }

  /** The string `dims_expr` emits for one dimension. */
  function DimString(d: Dim): string {
    match d
    case DimIdent(name) => name
    case DimLit(lit) => lit.Text()
    case DimMul(left, right) => DimAtomString(left) + "*" + DimAtomString(right)
  }

  /** `dims_expr`: one string per dimension, in order. */
  function DimsExpr(dims: seq<Dim>): (r: seq<string>)
    ensures |r| == |dims|
    ensures forall i :: 0 <= i < |dims| ==> r[i] == DimString(dims[i])
  {
    seq(|dims|, i requires 0 <= i < |dims| => DimString(dims[i]))
  }

  /** Lowering a concatenation of shapes lowers each part in place: order is kept. */
  lemma DimsExprAppend(a: seq<Dim>, b: seq<Dim>)
    ensures DimsExpr(a + b) == DimsExpr(a) + DimsExpr(b)
  {
    assert forall i :: 0 <= i < |a| ==> (a + b)[i] == a[i];
    assert forall i :: |a| <= i < |a| + |b| ==> (a + b)[i] == b[i - |a|];
  }

  // ---- reading a lowered dimension back ----

  predicate StarFree(s: string) {
    forall i :: 0 <= i < |s| ==> s[i] != '*'
  }

  /** Names and literal digits never contain `*`: the lexer does not put one in a word. */
  predicate AtomWellFormed(a: DimAtom) {
    match a
    case AtomIdent(name) => StarFree(name)
    case AtomLit(lit) => StarFree(lit.digits)
  }

  predicate DimWellFormed(d: Dim) {
    match d
    case DimIdent(name) => StarFree(name)
    case DimLit(lit) => StarFree(lit.digits)
    case DimMul(left, right) => AtomWellFormed(left) && AtomWellFormed(right)
  }

  /** The position of the first `*`, if any. */
  function StarIndex(s: string): (r: Option<nat>)
    ensures r.None? <==> StarFree(s)
    ensures r.Some? ==> r.value < |s| && s[r.value] == '*' && StarFree(s[..r.value])
  {
    if s == [] then None
    else if s[0] == '*' then Some(0)
    else
      match StarIndex(s[1..])
      case None => None
      case Some(k) =>
        assert s[..k + 1] == [s[0]] + s[1..][..k];
        Some(k + 1)
  }

  /** Splits a lowered dimension at its `*` into the two factors. */
  function SplitProduct(s: string): (r: Option<(string, string)>)
  {
    match StarIndex(s)
    case None => None
    case Some(k) => Some((s[..k], s[k + 1..]))
  }

  lemma AtomTextStarFree(a: DimAtom)
    requires AtomWellFormed(a)
    ensures StarFree(DimAtomString(a))
  {
    if a.AtomLit? {
      var t := DimAtomString(a);
      forall i | 0 <= i < |t|
        ensures t[i] != '*'
      {
        if a.lit.negative && i > 0 {
          assert t[i] == a.lit.digits[i - 1];
        }
      }
    }
  }

  /** The first `*` of `a * b` with star-free `a` is the one after `a`. */
  lemma {:induction false} StarAfter(a: string, b: string)
    requires StarFree(a)
    ensures StarIndex(a + "*" + b) == Some(|a|)
  {
    if a != [] {
      assert (a + "*" + b)[1..] == a[1..] + "*" + b;
      StarAfter(a[1..], b);
    }
  }

  /** A product reads back as its two factors; a name or a literal has no `*` to split at,
      so the three kinds of dimension stay apart after lowering. */
  lemma DimStringReadBack(d: Dim)
    requires DimWellFormed(d)
    ensures d.DimMul? ==> SplitProduct(DimString(d)) == Some((DimAtomString(d.left), DimAtomString(d.right)))
    ensures !d.DimMul? ==> SplitProduct(DimString(d)) == None
  {
    match d
    case DimMul(left, right) =>
      AtomTextStarFree(left);
      var s := DimString(d);
      StarAfter(DimAtomString(left), DimAtomString(right));
      assert s[..|DimAtomString(left)|] == DimAtomString(left);
      assert s[|DimAtomString(left)| + 1..] == DimAtomString(right);
    case DimIdent(name) =>
    case DimLit(lit) =>
      AtomTextStarFree(AtomLit(lit));
  }
}
