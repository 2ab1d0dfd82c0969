/** Cache access lowering: the DSL's cache access becomes the runtime's
    `CacheAccess` value, entry by entry (src/codegen/cache.rs). */
module CacheCodegen {
  import opened Results
  import opened Tokens
  import opened Ast

  /** `::openinfer::CacheIndexValue`. */
  datatype RtIndexValue = RtIdent(name: string) | RtLit(n: Int64)

  /** `::openinfer::CacheIndexExpr`. */
  datatype RtIndex = RtSingle(value: RtIndexValue) | RtSlice(start: Option<RtIndexValue>, end: Option<RtIndexValue>)

  /** `::openinfer::CacheAccess`. */
  datatype RtCacheAccess = RtCacheAccess(base: string, indices: seq<RtIndex>, bracketed: bool)

  /** `cache_index_value`: a name becomes its string, a literal keeps its i64. */
  function IndexValueExpr(v: CacheIndexValue): RtIndexValue {
    match v
    case CacheIdent(name) => RtIdent(name)
    case CacheLit(n) => RtLit(n)
  }

  /** `cache_index_value_opt`. */
  function IndexValueOptExpr(v: Option<CacheIndexValue>): Option<RtIndexValue> {
    match v
    case Some(x) => Some(IndexValueExpr(x))
    case None => None
  }

  /** `cache_index_expr`. */
  function IndexExpr(e: CacheIndexExpr): RtIndex {
    match e
    case Single(v) => RtSingle(IndexValueExpr(v))
    case Slice(start, end) => RtSlice(IndexValueOptExpr(start), IndexValueOptExpr(end))
  }

  /** `cache_access_expr`: always succeeds; the base and the bracketing are copied and the
      indices are lowered one to one, in order. */
  function CacheAccessExpr(a: CacheAccess): (r: Result<RtCacheAccess>)
    ensures r.Ok?
    ensures r.value.base == a.name && r.value.bracketed == a.bracketed
    ensures |r.value.indices| == |a.indices|
    ensures forall i :: 0 <= i < |a.indices| ==> r.value.indices[i] == IndexExpr(a.indices[i])
  {
    Ok(RtCacheAccess(a.name, seq(|a.indices|, i requires 0 <= i < |a.indices| => IndexExpr(a.indices[i])), a.bracketed))
  }

  // ---- reading a runtime access back ----

  function IndexValueOf(v: RtIndexValue): CacheIndexValue {
    match v
    case RtIdent(name) => CacheIdent(name)
    case RtLit(n) => CacheLit(n)
  }

  function IndexValueOptOf(v: Option<RtIndexValue>): Option<CacheIndexValue> {
    match v
    case Some(x) => Some(IndexValueOf(x))
    case None => None
  }

  function IndexOf(e: RtIndex): CacheIndexExpr {
    match e
    case RtSingle(v) => Single(IndexValueOf(v))
    case RtSlice(start, end) => Slice(IndexValueOptOf(start), IndexValueOptOf(end))
  }

  function AccessOf(a: RtCacheAccess): CacheAccess {
    CacheAccess(a.base, seq(|a.indices|, i requires 0 <= i < |a.indices| => IndexOf(a.indices[i])), a.bracketed)
  }

  /** Single stays Single and Slice stays Slice, with the presence of each bound kept. */
  lemma IndexKindKept(e: CacheIndexExpr)
    ensures IndexExpr(e).RtSingle? <==> e.Single?
    ensures e.Slice? ==> (IndexExpr(e).start.Some? <==> e.start.Some?) && (IndexExpr(e).end.Some? <==> e.end.Some?)
    ensures IndexOf(IndexExpr(e)) == e
  {
    match e
    case Single(v) =>
      assert IndexValueOf(IndexValueExpr(v)) == v;
    case Slice(start, end) =>
      assert start.Some? ==> IndexValueOf(IndexValueExpr(start.value)) == start.value;
      assert end.Some? ==> IndexValueOf(IndexValueExpr(end.value)) == end.value;
  }

  /** Nothing is lost in lowering: the runtime access reads back as the access written. */
  lemma CacheAccessRoundTrip(a: CacheAccess)
    ensures AccessOf(CacheAccessExpr(a).value) == a
  {
    var r := CacheAccessExpr(a).value;
    forall i | 0 <= i < |a.indices|
      ensures IndexOf(r.indices[i]) == a.indices[i]
    {
      IndexKindKept(a.indices[i]);
    }
  }
}
