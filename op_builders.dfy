/** The per-op attribute builders: accumulate (src/validation/ops/accumulate.rs),
    fill (src/validation/ops/fill.rs) and relu (src/validation/ops/relu.rs). Each builds
    the settings map, takes the settings it knows, rejects whatever is left, then builds
    its `OpAttrs` variant. */
module OpBuilders {
  import opened Results
  import opened Tokens
  import opened Ast
  import opened MemoryCodegen
  import opened OpsValidation

  /** The `0.0` default of fill's `value` and relu's `alpha`. */
  const Zero: OpAttrValue := DoubleAttr(Number(LitFloat(false, "0.0"), false))

  /** The positive-infinity default of relu's `clamp_max`. */
  const PosInfinity: OpAttrValue := DoubleAttr(Infinity(false))

  const AccNotDType: string := "acc setting expects a dtype identifier like i32"

  /** Whatever `ensure_empty` finds once the `taken` names are removed. */
  function Leftover(m: map<string, OpSetting>, taken: set<string>): map<string, OpSetting> {
    m - taken
  }

  /** Nothing is left over exactly when every setting has one of the taken names. */
  lemma LeftoverEmpty(ss: seq<OpSetting>, taken: set<string>)
    requires SettingsOf(ss).Ok?
    ensures Leftover(SettingsOf(ss).value, taken) == map[] <==> forall i :: 0 <= i < |ss| ==> ss[i].name in taken
  {
    var m := SettingsOf(ss).value;
    if forall i :: 0 <= i < |ss| ==> ss[i].name in taken {
      forall k | k in m
        ensures k in taken
      {
        EntryIsSetting(ss, k);
      }
      assert Leftover(m, taken).Keys == {};
    } else {
      var i :| 0 <= i < |ss| && ss[i].name !in taken;
      assert ss[i].name in Leftover(m, taken);
    }
  }

  /** The value under `name`, or `default` when the setting is absent (`unwrap_or_else`). */
  function ValueOr(m: map<string, OpSetting>, name: string, default: OpAttrValue): OpAttrValue {
    if name in m then m[name].value else default
  }

  /** A present setting's value is the value of the setting with that name. */
  lemma ValueOrFound(ss: seq<OpSetting>, i: nat, default: OpAttrValue)
    requires SettingsOf(ss).Ok? && i < |ss|
    ensures ValueOr(SettingsOf(ss).value, ss[i].name, default) == ss[i].value
  {
  }

  // ---- accumulate ----

  /** Accumulate's attributes: no `acc` gives no attributes; `acc` must name a dtype. */
  function AccumulateAttrsOf(ss: seq<OpSetting>): (r: Result<OpAttrs>)
    ensures SettingsOf(ss).Err? ==> r == Err(SettingsOf(ss).msg)
    ensures r.Ok? ==> r.value.NoOpAttrs? || r.value.Accumulate?
  {
    var m :- SettingsOf(ss);
    if Leftover(m, {"acc"}) != map[] then Err(UnsupportedSetting)
    else if "acc" !in m then Ok(NoOpAttrs)
    else
      match m["acc"].value
      case VarAttr(name) =>
        var t :- DTypeOf(name);
        Ok(Accumulate(t))
      case _ => Err(AccNotDType)
  }

  /** `accumulate::build_attrs`. */
  method BuildAccumulate(op: string, ss: seq<OpSetting>) returns (r: Result<OpAttrs>)
    ensures r == AccumulateAttrsOf(ss)
  {
    var settings :- SettingsMap.New(ss);
    var acc := settings.TakeValue("acc");
    var empty := settings.EnsureEmpty();
    if empty.Fail? {
      return Err(empty.msg);
    }
    if acc.None? {
      return Ok(NoOpAttrs);
    }
    match acc.value
    case VarAttr(name) =>
      var t := DTypeOf(name);
      if t.Err? {
        return Err(t.msg);
      }
      return Ok(Accumulate(t.value));
    case _ =>
      return Err(AccNotDType);
  }

  /** Without settings, accumulate carries no attributes. */
  lemma AccumulateWithoutAcc()
    ensures AccumulateAttrsOf([]) == Ok(NoOpAttrs)
  {
  }

  /** `acc = <dtype>` selects that accumulation dtype. */
  lemma AccumulateDType(t: DType)
    ensures AccumulateAttrsOf([OpSetting("acc", VarAttr(DTypeName(t)))]) == Ok(Accumulate(t))
  {
    var ss := [OpSetting("acc", VarAttr(DTypeName(t)))];
    LeftoverEmpty(ss, {"acc"});
    DTypeRoundTrip(t);
  }

  /** An `acc` that is not an identifier is rejected. */
  lemma AccumulateNeedsIdentifier(v: OpAttrValue)
    requires !v.VarAttr?
    ensures AccumulateAttrsOf([OpSetting("acc", v)]) == Err(AccNotDType)
  {
    LeftoverEmpty([OpSetting("acc", v)], {"acc"});
  }

  /** Accumulate succeeds exactly when the names are distinct, every one is `acc`, and each
      value names a dtype; any other setting is reported before `acc` is looked at. */
  lemma AccumulateAccepts(ss: seq<OpSetting>)
    ensures AccumulateAttrsOf(ss).Ok? <==>
              NamesFresh(map[], ss)
              && (forall i :: 0 <= i < |ss| ==> ss[i].name == "acc")
              && (forall i :: 0 <= i < |ss| ==> ss[i].value.VarAttr? && DTypeOf(ss[i].value.name).Ok?)
    ensures AccumulateAttrsOf(ss).Ok? && ss != [] ==>
              AccumulateAttrsOf(ss).value == Accumulate(DTypeOf(ss[0].value.name).value)
    ensures NamesFresh(map[], ss) && (exists i :: 0 <= i < |ss| && ss[i].name != "acc") ==>
              AccumulateAttrsOf(ss) == Err(UnsupportedSetting)
  {
    if SettingsOf(ss).Ok? {
      LeftoverEmpty(ss, {"acc"});
      if |ss| > 0 && forall i :: 0 <= i < |ss| ==> ss[i].name == "acc" {
        ValueOrFound(ss, 0, Zero);
      }
    }
  }

  // ---- fill ----

  /** Fill's attributes: `value`, with a default of 0.0, passed through as it is. */
  function FillAttrsOf(ss: seq<OpSetting>): (r: Result<OpAttrs>)
    ensures SettingsOf(ss).Err? ==> r == Err(SettingsOf(ss).msg)
    ensures r.Ok? ==> r.value.Fill?
  {
    var m :- SettingsOf(ss);
    var value := ValueOr(m, "value", Zero);
    if Leftover(m, {"value"}) != map[] then Err(UnsupportedSetting)
    else Ok(Fill(ValueAttr(value)))
  }

  /** `fill::build_attrs`. */
  method BuildFill(op: string, ss: seq<OpSetting>) returns (r: Result<OpAttrs>)
    ensures r == FillAttrsOf(ss)
  {
    var settings :- SettingsMap.New(ss);
    var value := settings.TakeValue("value");
    var v := if value.Some? then value.value else Zero;
    var empty := settings.EnsureEmpty();
    if empty.Fail? {
      return Err(empty.msg);
    }
    return Ok(Fill(ValueAttr(v)));
  }

  /** Without settings, fill uses 0.0. */
  lemma FillDefault()
    ensures FillAttrsOf([]) == Ok(Fill(AttrDouble(Number(LitFloat(false, "0.0"), false))))
  {
  }

  /** Fill succeeds exactly when the names are distinct and every one is `value`; a supplied
      value of any kind is passed through. */
  lemma FillAccepts(ss: seq<OpSetting>)
    ensures FillAttrsOf(ss).Ok? <==> NamesFresh(map[], ss) && forall i :: 0 <= i < |ss| ==> ss[i].name == "value"
    ensures FillAttrsOf(ss).Ok? && ss != [] ==> FillAttrsOf(ss).value == Fill(ValueAttr(ss[0].value))
  {
    if SettingsOf(ss).Ok? {
      LeftoverEmpty(ss, {"value"});
      if ss != [] {
        ValueOrFound(ss, 0, Zero);
      }
    }
  }

  // ---- relu ----

  /** Relu's attributes: `alpha` (default 0.0) and `clamp_max` (default +infinity). */
  function ReluAttrsOf(ss: seq<OpSetting>): (r: Result<OpAttrs>)
    ensures SettingsOf(ss).Err? ==> r == Err(SettingsOf(ss).msg)
    ensures r.Ok? ==> r.value.Relu?
  {
    var m :- SettingsOf(ss);
    var alpha := ValueOr(m, "alpha", Zero);
    var clampMax := ValueOr(m, "clamp_max", PosInfinity);
    if Leftover(m, {"alpha", "clamp_max"}) != map[] then Err(UnsupportedSetting)
    else Ok(Relu(ValueAttr(alpha), ValueAttr(clampMax)))
  }

  /** `relu::build_attrs`. */
  method BuildRelu(op: string, ss: seq<OpSetting>) returns (r: Result<OpAttrs>)
    ensures r == ReluAttrsOf(ss)
  {
    var settings :- SettingsMap.New(ss);
    ghost var m := settings.settings;
    var alpha := settings.TakeValue("alpha");
    var a := if alpha.Some? then alpha.value else Zero;
    assert a == ValueOr(m, "alpha", Zero);
    ghost var afterAlpha := settings.settings;
    assert "clamp_max" in afterAlpha <==> "clamp_max" in m;
    assert "clamp_max" in m ==> afterAlpha["clamp_max"] == m["clamp_max"];
    var clampMax := settings.TakeValue("clamp_max");
    var c := if clampMax.Some? then clampMax.value else PosInfinity;
    assert c == ValueOr(m, "clamp_max", PosInfinity);
    assert settings.settings == Leftover(m, {"alpha", "clamp_max"});
    var empty := settings.EnsureEmpty();
    if empty.Fail? {
      return Err(empty.msg);
    }
    return Ok(Relu(ValueAttr(a), ValueAttr(c)));
  }

  /** Without settings, relu uses alpha 0.0 and no clamp. */
  lemma ReluDefaults()
    ensures ReluAttrsOf([]) == Ok(Relu(AttrDouble(Number(LitFloat(false, "0.0"), false)), AttrDouble(Infinity(false))))
  {
  }

  /** Relu succeeds exactly when the names are distinct and each is `alpha` or `clamp_max`;
      supplied values are passed through in their own slots. */
  lemma ReluAccepts(ss: seq<OpSetting>)
    ensures ReluAttrsOf(ss).Ok? <==>
              NamesFresh(map[], ss) && forall i :: 0 <= i < |ss| ==> ss[i].name in {"alpha", "clamp_max"}
    ensures ReluAttrsOf(ss).Ok? ==> forall i :: 0 <= i < |ss| && ss[i].name == "alpha" ==>
              ReluAttrsOf(ss).value.alpha == ValueAttr(ss[i].value)
    ensures ReluAttrsOf(ss).Ok? ==> forall i :: 0 <= i < |ss| && ss[i].name == "clamp_max" ==>
              ReluAttrsOf(ss).value.clampMax == ValueAttr(ss[i].value)
  {
    if SettingsOf(ss).Ok? {
      LeftoverEmpty(ss, {"alpha", "clamp_max"});
      forall i | 0 <= i < |ss|
        ensures ValueOr(SettingsOf(ss).value, ss[i].name, Zero) == ss[i].value
      {
        ValueOrFound(ss, i, Zero);
      }
    }
  }
}
