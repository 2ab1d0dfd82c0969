/** Op settings validation: the settings map with its duplicate check, the generic
    `OpAttrs { items }` lowering, and the per-op attribute builders for accumulate,
    fill and relu (src/validation/ops/). */
module OpsValidation {
  import opened Results
  import opened Tokens
  import opened Ast
  import opened MemoryCodegen

  /** An `::openinfer::AttrValue` as the generated code builds it. Float payloads are not interpreted. */
  datatype AttrValue =
    | AttrDType(dtype: DType)
    | AttrFloat(f: FloatValue)
    | AttrDouble(d: FloatValue)
    | AttrInt(i: Int64)
    | AttrBool(b: bool)
    | AttrStr(s: string)
    | AttrIntList(items: seq<Int64>)
    | AttrVar(name: string)

  /** The `OpAttrs` value handed to the graph for one op. */
  datatype OpAttrs =
    | NoOpAttrs
    | Items(items: map<string, AttrValue>)
    | Accumulate(accDType: DType)
    | Fill(value: AttrValue)
    | Relu(alpha: AttrValue, clampMax: AttrValue)

  // ---- the settings map ----

  function DuplicateMessage(name: string): string {
    "duplicate setting: " + name
  }

  /** No setting of `ss` is named in `m`, and no two settings of `ss` share a name. */
  predicate NamesFresh(m: map<string, OpSetting>, ss: seq<OpSetting>) {
    (forall i :: 0 <= i < |ss| ==> ss[i].name !in m)
    && (forall i, j :: 0 <= i < j < |ss| ==> ss[i].name != ss[j].name)
  }

  /** The setting at `j` repeats a name already in `m` or earlier in `ss`. */
  predicate Repeats(m: map<string, OpSetting>, ss: seq<OpSetting>, j: int)
    requires 0 <= j < |ss|
  {
    ss[j].name in m || exists i :: 0 <= i < j && ss[i].name == ss[j].name
  }

  /** A map keyed by each setting's own name. */
  predicate KeyedByName(m: map<string, OpSetting>) {
    forall k :: k in m ==> m[k].name == k
  }

  /** The settings map after inserting `ss` in order into `m`. */
  function SettingsFrom(m: map<string, OpSetting>, ss: seq<OpSetting>): (r: Result<map<string, OpSetting>>)
    ensures r.Ok? <==> NamesFresh(m, ss)
    decreases |ss|
  {
    if ss == [] then Ok(m)
    else if ss[0].name in m then Err(DuplicateMessage(ss[0].name))
    else
      FreshStep(m, ss);
      SettingsFrom(m[ss[0].name := ss[0]], ss[1..])
  }

  /** Inserting the first setting leaves the rest to be checked against the grown map. */
  lemma FreshStep(m: map<string, OpSetting>, ss: seq<OpSetting>)
    requires ss != [] && ss[0].name !in m
    ensures NamesFresh(m, ss) <==> NamesFresh(m[ss[0].name := ss[0]], ss[1..])
  {
    var m' := m[ss[0].name := ss[0]];
    if NamesFresh(m', ss[1..]) {
      forall i, j | 0 <= i < j < |ss|
        ensures ss[i].name != ss[j].name
      {
        if i == 0 {
          assert ss[1..][j - 1].name !in m';
        } else {
          assert ss[1..][i - 1].name != ss[1..][j - 1].name;
        }
      }
      forall i | 0 <= i < |ss|
        ensures ss[i].name !in m
      {
        if i > 0 {
          assert ss[1..][i - 1].name !in m';
        }
      }
    }
    if NamesFresh(m, ss) {
      forall i | 0 <= i < |ss[1..]|
        ensures ss[1..][i].name !in m'
      {
        assert ss[1..][i] == ss[i + 1];
        assert ss[0].name != ss[i + 1].name;
      }
      forall i, j | 0 <= i < j < |ss[1..]|
        ensures ss[1..][i].name != ss[1..][j].name
      {
        assert ss[i + 1].name != ss[j + 1].name;
      }
    }
  }

  /** A successful insertion keeps the old entries, adds one entry per setting under its
      name, and adds nothing else. */
  lemma {:induction false} SettingsFromContents(m: map<string, OpSetting>, ss: seq<OpSetting>)
    requires NamesFresh(m, ss)
    ensures SettingsFrom(m, ss).Ok?
    ensures |SettingsFrom(m, ss).value| == |m| + |ss|
    ensures forall k :: k in m ==> k in SettingsFrom(m, ss).value && SettingsFrom(m, ss).value[k] == m[k]
    ensures forall i :: 0 <= i < |ss| ==>
              ss[i].name in SettingsFrom(m, ss).value && SettingsFrom(m, ss).value[ss[i].name] == ss[i]
    ensures forall k :: k in SettingsFrom(m, ss).value ==> k in m || exists i :: 0 <= i < |ss| && ss[i].name == k
    decreases |ss|
  {
    if ss != [] {
      var m' := m[ss[0].name := ss[0]];
      FreshStep(m, ss);
      SettingsFromContents(m', ss[1..]);
      var r := SettingsFrom(m', ss[1..]).value;
      assert SettingsFrom(m, ss).value == r;
      forall i | 0 <= i < |ss|
        ensures ss[i].name in r && r[ss[i].name] == ss[i]
      {
        if i > 0 {
          assert ss[1..][i - 1] == ss[i];
        }
      }
      forall k | k in r
        ensures k in m || exists i :: 0 <= i < |ss| && ss[i].name == k
      {
        if k !in m' {
          var i :| 0 <= i < |ss[1..]| && ss[1..][i].name == k;
          assert ss[i + 1].name == k;
        }
      }
    }
  }

  /** A failed insertion reports the first setting whose name was already taken. */
  lemma {:induction false} SettingsFromRepeat(m: map<string, OpSetting>, ss: seq<OpSetting>)
    requires !NamesFresh(m, ss)
    ensures SettingsFrom(m, ss).Err?
    ensures exists j :: 0 <= j < |ss| && Repeats(m, ss, j)
                       && (forall i :: 0 <= i < j ==> !Repeats(m, ss, i))
                       && SettingsFrom(m, ss).msg == DuplicateMessage(ss[j].name)
    decreases |ss|
  {
    if ss[0].name in m {
      assert Repeats(m, ss, 0);
    } else {
      var m' := m[ss[0].name := ss[0]];
      FreshStep(m, ss);
      SettingsFromRepeat(m', ss[1..]);
      var j :| 0 <= j < |ss[1..]| && Repeats(m', ss[1..], j)
               && (forall i :: 0 <= i < j ==> !Repeats(m', ss[1..], i))
               && SettingsFrom(m', ss[1..]).msg == DuplicateMessage(ss[1..][j].name);
      ShiftRepeat(m, ss, j);
      forall i | 0 <= i < j + 1
        ensures !Repeats(m, ss, i)
      {
        if i > 0 {
          ShiftRepeat(m, ss, i - 1);
        }
      }
    }
  }

  /** Repeats after the first insertion are the repeats of the whole list, one position on. */
  lemma ShiftRepeat(m: map<string, OpSetting>, ss: seq<OpSetting>, j: nat)
    requires ss != [] && ss[0].name !in m && j < |ss| - 1
    ensures Repeats(m[ss[0].name := ss[0]], ss[1..], j) <==> Repeats(m, ss, j + 1)
  {
    var m' := m[ss[0].name := ss[0]];
    assert ss[1..][j] == ss[j + 1];
    if Repeats(m', ss[1..], j) {
      if ss[j + 1].name !in m' {
        var i :| 0 <= i < j && ss[1..][i].name == ss[1..][j].name;
        assert ss[i + 1].name == ss[j + 1].name;
      } else if ss[j + 1].name !in m {
        assert ss[0].name == ss[j + 1].name;
      }
    }
    if Repeats(m, ss, j + 1) && ss[j + 1].name !in m {
      var i :| 0 <= i < j + 1 && ss[i].name == ss[j + 1].name;
      if i > 0 {
        assert ss[1..][i - 1].name == ss[1..][j].name;
      }
    }
  }

  /** `SettingsMap::new`: every setting keyed by its name, in one pass. */
  function SettingsOf(ss: seq<OpSetting>): (r: Result<map<string, OpSetting>>)
    ensures r.Ok? <==> NamesFresh(map[], ss)
    ensures r.Ok? ==> |r.value| == |ss| && KeyedByName(r.value)
    ensures r.Ok? ==> forall i :: 0 <= i < |ss| ==> ss[i].name in r.value && r.value[ss[i].name] == ss[i]
    ensures r.Ok? ==> forall k :: k in r.value ==> exists i :: 0 <= i < |ss| && ss[i].name == k
    ensures r.Err? ==> exists j :: 0 <= j < |ss| && Repeats(map[], ss, j)
                                  && (forall i :: 0 <= i < j ==> !Repeats(map[], ss, i))
                                  && r.msg == DuplicateMessage(ss[j].name)
  {
    if NamesFresh(map[], ss) then
      SettingsFromContents(map[], ss);
      SettingsFrom(map[], ss)
    else
      SettingsFromRepeat(map[], ss);
      SettingsFrom(map[], ss)
  }

  /** The mutable settings map the per-op builders consume. */
  class SettingsMap {
    var settings: map<string, OpSetting>

    constructor(m: map<string, OpSetting>)
      ensures settings == m
    {
      settings := m;
    }

    /** `SettingsMap::new`: inserts the settings in order, failing on the first repeated name. */
    static method New(ss: seq<OpSetting>) returns (r: Result<SettingsMap>)
      ensures r.Ok? <==> SettingsOf(ss).Ok?
      ensures r.Ok? ==> fresh(r.value) && r.value.settings == SettingsOf(ss).value
      ensures r.Err? ==> r.msg == SettingsOf(ss).msg
    {
      var m: map<string, OpSetting> := map[];
      var i := 0;
      while i < |ss|
        invariant 0 <= i <= |ss|
        invariant SettingsFrom(m, ss[i..]) == SettingsOf(ss)
      {
        var key := ss[i].name;
        if key in m {
          return Err(DuplicateMessage(key));
        }
        assert ss[i..][1..] == ss[i + 1..];
        m := m[key := ss[i]];
        i := i + 1;
      }
      var sm := new SettingsMap(m);
      return Ok(sm);
    }

    /** `take_value`: removes a setting and returns its value, if present. */
    method TakeValue(name: string) returns (v: Option<OpAttrValue>)
      modifies this
      ensures settings == old(settings) - {name}
      ensures v.Some? <==> name in old(settings)
      ensures v.Some? ==> v.value == old(settings)[name].value
    {
      if name in settings {
        v := Some(settings[name].value);
      } else {
        v := None;
      }
      settings := settings - {name};
    }

    /** `ensure_empty`: fails when any setting was left unconsumed. */
    method EnsureEmpty() returns (o: Outcome)
      ensures o.Pass? <==> settings == map[]
      ensures o.Fail? ==> o.msg == UnsupportedSetting
    {
      if settings == map[] {
        o := Pass;
      } else {
        o := Fail(UnsupportedSetting);
      }
    }
  }

  /** The error for a setting no builder consumed. */
  const UnsupportedSetting: string := "unsupported setting"

  // ---- attribute values ----

  /** The value arm of `attr_value_expr`: every setting value keeps its kind and payload. */
  function ValueAttr(v: OpAttrValue): AttrValue {
    match v
    case FloatAttr(f) => AttrFloat(f)
    case DoubleAttr(d) => AttrDouble(d)
    case IntAttr(i) => AttrInt(i)
    case BoolAttr(b) => AttrBool(b)
    case StringAttr(s) => AttrStr(s)
    case IntListAttr(items) => AttrIntList(items)
    case VarAttr(name) => AttrVar(name)
  }

  /** The setting value an attribute value came from; a dtype has none. */
  function SettingValue(a: AttrValue): (r: Option<OpAttrValue>)
    ensures r.None? <==> a.AttrDType?
  {
    match a
    case AttrDType(_) => None
    case AttrFloat(f) => Some(FloatAttr(f))
    case AttrDouble(d) => Some(DoubleAttr(d))
    case AttrInt(i) => Some(IntAttr(i))
    case AttrBool(b) => Some(BoolAttr(b))
    case AttrStr(s) => Some(StringAttr(s))
    case AttrIntList(items) => Some(IntListAttr(items))
    case AttrVar(name) => Some(VarAttr(name))
  }

  /** No value is lost: the attribute gives back exactly the setting value. */
  lemma ValueAttrRoundTrip(v: OpAttrValue)
    ensures !ValueAttr(v).AttrDType?
    ensures SettingValue(ValueAttr(v)) == Some(v)
  {
  }

  predicate IsDTypeSetting(name: string) {
    name == "acc" || name == "to"
  }

  /** `attr_value_expr`: `acc` and `to` must name a dtype; every other setting keeps its value. */
  function AttrValueOf(s: OpSetting): (r: Result<AttrValue>)
    ensures !IsDTypeSetting(s.name) ==> r == Ok(ValueAttr(s.value))
    ensures IsDTypeSetting(s.name) ==>
              (r.Ok? <==> s.value.VarAttr? && DTypeOf(s.value.name).Ok?)
              && (r.Ok? ==> r.value == AttrDType(DTypeOf(s.value.name).value))
              && (!s.value.VarAttr? ==> r == Err("acc must be a dtype identifier"))
              && (s.value.VarAttr? && r.Err? ==> r.msg == "unsupported dtype")
  {
    if IsDTypeSetting(s.name) then
      match s.value
      case VarAttr(name) =>
        var t :- DTypeOf(name);
        Ok(AttrDType(t))
      case _ => Err("acc must be a dtype identifier")
    else Ok(ValueAttr(s.value))
  }

  /** A dtype setting given by the name of a dtype lowers to that dtype. */
  lemma DTypeSettingValue(name: string, t: DType)
    requires IsDTypeSetting(name)
    ensures AttrValueOf(OpSetting(name, VarAttr(DTypeName(t)))) == Ok(AttrDType(t))
  {
    DTypeRoundTrip(t);
  }

  // ---- the generic path ----

  /** Every setting lowers without error. */
  predicate AllLower(ss: seq<OpSetting>) {
    forall i :: 0 <= i < |ss| ==> AttrValueOf(ss[i]).Ok?
  }

  lemma AllLowerStep(ss: seq<OpSetting>)
    requires ss != []
    ensures AllLower(ss) <==> AttrValueOf(ss[0]).Ok? && AllLower(ss[1..])
  {
    if AttrValueOf(ss[0]).Ok? && AllLower(ss[1..]) {
      forall i | 1 <= i < |ss|
        ensures AttrValueOf(ss[i]).Ok?
      {
        assert ss[i] == ss[1..][i - 1];
      }
    }
  }

  /** The first failure, in source order, among the settings' attribute values. */
  function FirstAttrError(ss: seq<OpSetting>): (r: Option<string>)
    ensures r.None? <==> AllLower(ss)
  {
    if ss == [] then None
    else
      AllLowerStep(ss);
      match AttrValueOf(ss[0])
      case Err(msg) => Some(msg)
      case Ok(_) => FirstAttrError(ss[1..])
  }

  /** The reported failure is the error of a setting that fails, and no earlier setting fails. */
  lemma {:induction false} FirstAttrErrorFound(ss: seq<OpSetting>)
    requires FirstAttrError(ss).Some?
    ensures exists i :: 0 <= i < |ss| && AttrValueOf(ss[i]) == Err(FirstAttrError(ss).value)
                        && forall j :: 0 <= j < i ==> AttrValueOf(ss[j]).Ok?
  {
    if AttrValueOf(ss[0]).Ok? {
      FirstAttrErrorFound(ss[1..]);
      var i :| 0 <= i < |ss[1..]| && AttrValueOf(ss[1..][i]) == Err(FirstAttrError(ss[1..]).value)
               && forall j :: 0 <= j < i ==> AttrValueOf(ss[1..][j]).Ok?;
      assert ss[i + 1] == ss[1..][i];
      forall j | 0 <= j < i + 1
        ensures AttrValueOf(ss[j]).Ok?
      {
        if j > 0 {
          assert ss[j] == ss[1..][j - 1];
        }
      }
    }
  }

  /** The items of a map whose every setting lowers. */
  function LowerAll(m: map<string, OpSetting>): (r: map<string, AttrValue>)
    requires forall k :: k in m ==> AttrValueOf(m[k]).Ok?
    ensures r.Keys == m.Keys
  {
    map k | k in m :: AttrValueOf(m[k]).value
  }

  /** Every entry of the settings map is one of the settings, under its own name. */
  lemma EntryIsSetting(ss: seq<OpSetting>, k: string)
    requires SettingsOf(ss).Ok? && k in SettingsOf(ss).value
    ensures exists i :: 0 <= i < |ss| && ss[i].name == k && SettingsOf(ss).value[k] == ss[i]
  {
  }

  /** The settings lower exactly when every entry of their map does. */
  lemma LowerThroughMap(ss: seq<OpSetting>)
    requires SettingsOf(ss).Ok?
    ensures AllLower(ss) <==> forall k :: k in SettingsOf(ss).value ==> AttrValueOf(SettingsOf(ss).value[k]).Ok?
  {
    var m := SettingsOf(ss).value;
    if AllLower(ss) {
      forall k | k in m
        ensures AttrValueOf(m[k]).Ok?
      {
        EntryIsSetting(ss, k);
      }
    }
  }

  /** `op_attrs_expr` with a deterministic error: one item per distinct setting, or the first
      failing setting in source order. */
  function OpAttrsOf(ss: seq<OpSetting>): (r: Result<map<string, AttrValue>>)
    ensures r.Ok? <==> NamesFresh(map[], ss) && AllLower(ss)
    ensures SettingsOf(ss).Err? ==> r == Err(SettingsOf(ss).msg)
    ensures SettingsOf(ss).Ok? && !AllLower(ss) ==> r == Err(FirstAttrError(ss).value)
  {
    var m :- SettingsOf(ss);
    match FirstAttrError(ss)
    case Some(msg) => Err(msg)
    case None =>
      LowerThroughMap(ss);
      Ok(LowerAll(m))
  }

  /** A lowered op has one item per setting, under the setting's name, holding its lowered value. */
  lemma OpAttrsItems(ss: seq<OpSetting>)
    requires OpAttrsOf(ss).Ok?
    ensures |OpAttrsOf(ss).value| == |ss|
    ensures forall i :: 0 <= i < |ss| ==>
              ss[i].name in OpAttrsOf(ss).value && Ok(OpAttrsOf(ss).value[ss[i].name]) == AttrValueOf(ss[i])
    ensures forall k :: k in OpAttrsOf(ss).value ==> exists i :: 0 <= i < |ss| && ss[i].name == k
  {
    var items := OpAttrsOf(ss).value;
    var m := SettingsOf(ss).value;
    assert items.Keys == m.Keys;
    assert |items| == |items.Keys| == |m.Keys| == |m|;
  }

  /** The draining loop of `op_attrs_expr`: empties the map, lowering each entry in an
      unspecified order, and stops at the first entry that fails. */
  method DrainAttrs(sm: SettingsMap) returns (r: Result<map<string, AttrValue>>)
    requires KeyedByName(sm.settings)
    modifies sm
    ensures r.Ok? <==> forall k :: k in old(sm.settings) ==> AttrValueOf(old(sm.settings)[k]).Ok?
    ensures r.Ok? ==> r.value == LowerAll(old(sm.settings))
    ensures r.Err? ==> exists k :: k in old(sm.settings) && AttrValueOf(old(sm.settings)[k]) == Err(r.msg)
  {
    ghost var all := sm.settings;
    var items: map<string, AttrValue> := map[];
    while sm.settings != map[]
      invariant sm.settings.Keys !! items.Keys
      invariant sm.settings.Keys + items.Keys == all.Keys
      invariant forall k :: k in sm.settings ==> sm.settings[k] == all[k]
      invariant forall k :: k in items ==> AttrValueOf(all[k]) == Ok(items[k])
      decreases sm.settings.Keys
    {
      var name :| name in sm.settings;
      ghost var entry := sm.settings[name];
      var value := sm.TakeValue(name);
      assert entry == OpSetting(name, value.value);
      var attr := AttrValueOf(OpSetting(name, value.value));
      if attr.Err? {
        return Err(attr.msg);
      }
      items := items[name := attr.value];
    }
    return Ok(items);
  }

  /** `op_attrs_expr`: builds the settings map, then drains it. */
  method OpAttrsExpr(op: string, ss: seq<OpSetting>) returns (r: Result<map<string, AttrValue>>)
    ensures r.Ok? <==> OpAttrsOf(ss).Ok?
    ensures r.Ok? ==> r.value == OpAttrsOf(ss).value
    ensures SettingsOf(ss).Err? ==> r == Err(SettingsOf(ss).msg)
    ensures r.Err? && SettingsOf(ss).Ok? ==> exists i :: 0 <= i < |ss| && AttrValueOf(ss[i]) == Err(r.msg)
  {
    var sm :- SettingsMap.New(ss);
    r := DrainAttrs(sm);
    LowerThroughMap(ss);
    if r.Err? {
      var k :| k in SettingsOf(ss).value && AttrValueOf(SettingsOf(ss).value[k]) == Err(r.msg);
      EntryIsSetting(ss, k);
    }
  }
}
