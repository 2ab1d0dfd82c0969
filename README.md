# openinfer-dsl front end, modelled in Dafny

The `graph!` macro of openinfer-dsl reads a small language that describes a
computation graph. The language has memory sections of variable declarations
(`dynamic { x: f32[B, D] @init(0.5); }`) and blocks of nodes. There are fifteen
node forms, among them `op`, `cache.read`, `branch` and `loop`. A loop holds
a body of further nodes. The macro parses the input into a syntax tree. It
then validates the tree and lowers it into an ordered list of
graph-construction statements (`add_var`, `add_block`, `add_node`, ...).

This project models that front end in three layers:

- **Parsers** (`src/parsers/*`, `src/attributes/*`). Each parser is a pure
  function from a token sequence to `Result<Parsed<T>>`, where `Parsed` holds
  the value read and the tokens left after it.
  - Every loop of the source is also a `method` with a `while` loop. Its
    `ensures` ties the result to the spec function.
  - Each parser has a printer (`...Tokens`), and a round-trip lemma proves that
    parsing a printed value gives the value back whatever follows it.
  - The error paths are modelled with the source's own messages, and edge
    cases are stated as lemmas: trailing commas, empty groups, duplicates,
    signs, out-of-range literals.
- **Validation** (`src/codegen/memory.rs`, `src/validation/ops/*`).
  - The closed table of 23 dtypes.
  - Per-dtype range checks on `@init` values.
  - The op-settings map with its duplicate check, and the generic lowering of
    op settings.
  - The accumulate, fill and relu attribute builders. Their settings map is a
    `class` whose `TakeValue` and `EnsureEmpty` methods update it in place.
- **Code generation** (`src/codegen/*`). The generated token streams are
  modelled as datatypes of the runtime calls they contain: `NodeKind`,
  `GraphStmt`, the runtime cache access. Lemmas prove three things:
  - nothing written in the source is lost;
  - order is kept;
  - lowering fails exactly when one of the parts fails.

Tokens are abstracted in `tokens.dfy`: identifiers, keywords, literals,
punctuation, and delimited groups as trees. syn's literal readers accept a `-`
immediately before a numeric literal as one negative literal, and the model
does the same. `>>` is one token, and a single `>` can be split off it, as syn
does for joint punctuation.

## Model

| member | source | states |
|---|---|---|
| Tokens.ExpectGt | src/parsers/node.rs:88-89 | one `>` is taken from `>` or split from `>>`, leaving the second `>` |
| Tokens.ParseLitInt | src/parsers/op.rs:71-71 | `LitInt::parse` succeeds exactly when an integer literal (possibly syn's negative one) comes next, and consumes it |
| Tokens.ToUsize | src/codegen/mod.rs:56-56 | a literal parses as `usize` exactly when it is non-negative and at most usize::MAX, keeping its value |
| Tokens.ToI64 | src/parsers/cache.rs:84-84 | a literal parses as i64 exactly when its value lies in the i64 range |
| Tokens.SignedI64 | src/parsers/op.rs:30-40 | sign then literal: the i64 is the negated value when signed; it fails when the literal is out of range or negating i64::MIN would overflow |
| Tokens.LitRoundTrip | src/parsers/op.rs:70-76 | the printed form of any literal is read back as that literal |
| DimsParser.ParseDimAtom | src/parsers/dims.rs:45-53 | succeeds exactly on a literal or identifier, with the source's error otherwise |
| DimsParser.DimsOf | src/parsers/dims.rs:6-43 | no `[` group gives the empty shape and consumes nothing; a group is consumed whole |
| DimsParser.ParseDims | src/parsers/dims.rs:6-43 | the entry loop computes exactly DimsOf |
| DimsParser.DimListRoundTrip | src/parsers/dims.rs:11-40 | a printed shape list (names, literals, two-atom products) is read back unchanged |
| DimsParser.DimsRoundTrip | src/parsers/dims.rs:6-43 | a bracketed printed shape is read back, leaving what follows |
| DimsParser.DimEntryRoundTrip | src/parsers/dims.rs:12-36 | one entry is read back whole when no `*` follows it |
| DimsParser.SecondStarRejected | src/parsers/dims.rs:26-36 | `B*D*E` is refused: only one `*` is read per entry |
| DimsParser.DanglingStarRejected | src/parsers/dims.rs:45-53 | `[B*]` is refused with the dimension-expression error |
| DimsParser.EmptyAndTrailingComma | src/parsers/dims.rs:37-39 | `[]` is the empty shape and a trailing comma is accepted |
| VarParser.IndicesOf | src/parsers/var.rs:6-24 | succeeds exactly on a non-empty well-formed `[...]` group; an empty group gives the source's error; the result is never empty |
| VarParser.ParseIndices | src/parsers/var.rs:6-24 | the index loop computes exactly IndicesOf |
| VarParser.ParseVarRef | src/parsers/var.rs:26-34 | a name, with indices exactly when a `[` group follows |
| VarParser.IndexListRoundTrip | src/parsers/var.rs:10-19 | a printed index list is read back unchanged |
| VarParser.VarRefRoundTrip | src/parsers/var.rs:26-34 | a printed reference is read back when a bare name is not followed by `[` |
| VarParser.EmptyAndTrailingComma | src/parsers/var.rs:10-22 | `x[]` is refused and `x[i,]` holds one index |
| RangeParser.ParseRangeValue | src/parsers/range.rs:6-14 | a literal, else an identifier, else the source's loop-range error |
| RangeParser.RangeRoundTrip | src/parsers/range.rs:6-14 | a printed bound is read back |
| RangeParser.MissingStart | src/parsers/range.rs:6-14 | `..3` and `-N` have no start; `-1` is one negative literal |
| CacheParser.ParseCacheIndexValue | src/parsers/cache.rs:75-98 | an identifier, or `-`? and an integer literal giving its value, negated when signed; a magnitude outside i64 is refused before negation; `-` before a name and any other token are refused with the source's messages |
| CacheParser.ParseCacheIndexValueOpt | src/parsers/cache.rs:68-73 | a bound is absent exactly at `,` or at the end, and then nothing is consumed |
| CacheParser.CacheIndicesOf | src/parsers/cache.rs:24-66 | succeeds exactly on a `[...]` group whose content is a valid index list, and reads that list |
| CacheParser.ParseCacheIndices | src/parsers/cache.rs:24-66 | the index loop, with its comma rules, computes exactly CacheIndicesOf |
| CacheParser.ParseCacheAccess | src/parsers/cache.rs:6-22 | the name is kept; `bracketed` holds exactly when a `[` group follows, and otherwise there are no indices |
| CacheParser.ParseCacheAmount | src/parsers/cache.rs:100-107 | the amount is 1 when no literal follows; otherwise the literal's value, refused outside i64 |
| CacheParser.ValueRoundTrip | src/parsers/cache.rs:75-98 | a printed index value is read back |
| CacheParser.EntryRoundTrip | src/parsers/cache.rs:37-54 | a printed single index or slice, with each bound present or absent, is read back |
| CacheParser.CacheIndexListRoundTrip | src/parsers/cache.rs:24-66 | a printed index list is read back unchanged |
| CacheParser.CacheAccessRoundTrip | src/parsers/cache.rs:6-22 | a printed access is read back, bracketing included |
| CacheParser.AmountRoundTrip | src/parsers/cache.rs:100-107 | every i64 amount, i64::MIN included, is read back from its spelling |
| CacheParser.LeadingComma | src/parsers/cache.rs:29-36 | each of any number of leading commas stands for one open slice `..`, before the entries that follow |
| CacheParser.TrailingComma | src/parsers/cache.rs:55-63 | a comma that ends the list after an entry adds one open slice |
| CacheParser.FiveEntries | src/parsers/cache.rs:24-66 | `t[1, .., 2.., ..3, 4..5]` has five entries in order, the second fully open |
| CacheParser.GapBetweenCommas | src/parsers/cache.rs:29-63 | `[x,,y]` keeps the gap between the commas as an open slice |
| CacheParser.Signs | src/parsers/cache.rs:75-98 | `-3` is a negative literal, `-i` is refused, `,` is not a value |
| OpParser.IntListOf | src/parsers/op.rs:25-47 | an integer list is empty exactly when its brackets are |
| OpParser.OpAttrValueOf | src/parsers/op.rs:24-104 | an integer list exactly when a valid `[...]` list comes first |
| OpParser.ParseOpAttrValue | src/parsers/op.rs:24-104 | the list loop and the scalar cases compute exactly OpAttrValueOf |
| OpParser.OpArgOf | src/parsers/op.rs:7-22 | `name = value` is a setting named `name`; anything else is a variable reference read by ParseVarRef |
| OpParser.SettingArg | src/parsers/op.rs:9-12 | a setting's value is what OpAttrValueOf reads after `=`, and the argument fails exactly when that value does |
| OpParser.IntListRoundTrip | src/parsers/op.rs:25-47 | a printed integer list is read back unchanged |
| OpParser.ValueRoundTrip | src/parsers/op.rs:24-104 | every value some input produces is read back from its printed form |
| OpParser.NegativeIntRoundTrip | src/parsers/op.rs:48-77 | `-n` is read as the negative i64 |
| OpParser.InfinityRoundTrip | src/parsers/op.rs:97-99 | `inf` is the positive double infinity |
| OpParser.NegatedNumberRoundTrip | src/parsers/op.rs:55-62 | `-` before a float literal negates it |
| OpParser.SignBeforeNonNumber | src/parsers/op.rs:63-101 | a sign before a bool, a string or an identifier is refused with the matching message |
| OpParser.MagnitudeTooLarge | src/parsers/op.rs:36-40 | a magnitude beyond i64 is refused before the negation, in a list and as a scalar |
| OpParser.CommasOptional | src/parsers/op.rs:42-44 | `[1 2]` is `[1, 2]` |
| OpParser.NotAValue | src/parsers/op.rs:103-103 | a `,` or a keyword is not a setting value |
| Attributes.InitValueOf | src/attributes/init.rs:6-30 | the value is read from a parenthesized group that is consumed whole |
| Attributes.InitLiteral | src/attributes/init.rs:15-29 | a float or integer literal is kept with the sign; a bool is accepted only unsigned (`boolean init cannot be negative`); any other token gives `expected numeric or boolean literal for init` |
| Attributes.RefNameOf | src/attributes/ref_attr.rs:5-14 | succeeds exactly on a lone string literal or identifier (keywords included) in parentheses; yields the string unchanged or the identifier's exact spelling |
| Attributes.PatternOf | src/attributes/pattern.rs:4-12 | succeeds exactly on a lone string literal in parentheses, and yields it |
| Attributes.AttrStep | src/attributes/mod.rs:27-90 | one attribute succeeds exactly when its name is known and not already given; unknown names and repeats give the source's messages |
| Attributes.AttrBody | src/attributes/mod.rs:29-89 | an attribute sets its own field and leaves the other five unchanged |
| Attributes.ParseAttrs | src/attributes/mod.rs:20-100 | the attribute loop computes exactly AttrsOf from the empty state |
| Attributes.ReadAutoDim | src/attributes/mod.rs:60-65 | the `@auto_dim` loop computes exactly NameListOf, the name-list reader it shares with prefix binders |
| Attributes.ReadFixed | src/attributes/mod.rs:76-84 | the `@fixed` loop computes exactly FixedListOf |
| Attributes.AttrsKeep | src/attributes/mod.rs:20-100 | reading more attributes never changes one already set |
| Attributes.DuplicateRejected | src/attributes/mod.rs:30-71 | a second attribute of a kind already given is refused |
| Attributes.AttrsRoundTrip | src/attributes/mod.rs:20-100 | every attribute set, each at most once, is read back from its printed form |
| Attributes.InitValueRoundTrip | src/attributes/init.rs:6-30 | every init value is read back from its printed form: the sign flag and the literal, itself possibly negative (`@init(- -1)`) |
| Attributes.FixedListRoundTrip | src/attributes/mod.rs:76-84 | printed `@fixed` entries are read back in order |
| Attributes.EmptyAutoDimRejected | src/attributes/mod.rs:66-68 | `@auto_dim()` is refused |
| Attributes.EmptyFixedRejected | src/attributes/mod.rs:85-87 | `@fixed()` is refused |
| Attributes.UnknownRejected | src/attributes/mod.rs:88-90 | an unknown attribute name is refused |
| Attributes.InitAndRefEdges | src/attributes/init.rs:21-28 | `@init(-true)` and `@init()` are refused; `@ref(self)` names `self` |
| NodeParser.NodeOf | src/parsers/node.rs:16-206 | succeeds exactly when a node keyword comes first and its body parses; otherwise `unsupported node` |
| NodeParser.CacheNodeOf | src/parsers/node.rs:17-53 | after `cache.` an operation name must follow, else `unsupported cache operation` |
| NodeParser.OpArgsOf | src/parsers/node.rs:70-91 | once a setting was seen, no input is accepted; empty arguments give empty lists |
| NodeParser.ParseOpArgs | src/parsers/node.rs:70-91 | the argument loop with its `seen_setting` flag computes exactly OpArgsOf |
| NodeParser.OpNodeOf | src/parsers/node.rs:62-97 | an op node starts with a name and a parenthesized argument group |
| NodeParser.BranchOf | src/parsers/node.rs:98-120 | a condition is present exactly when an else block is |
| NodeParser.VarListOf | src/parsers/node.rs:162-170 | an empty name list leaves the `;` in place |
| NodeParser.ParseVarList | src/parsers/node.rs:163-170 | the name loop of `yield`/`await` computes exactly VarListOf |
| NodeParser.VarsNodeOf | src/parsers/node.rs:160-191 | at least one name is read; an immediate `;` gives `<keyword> expects at least one variable` |
| NodeParser.NodeListOf | src/parsers/node.rs:150-152 | a node list is empty exactly when its braces are |
| NodeParser.ParseNodes | src/parsers/node.rs:150-152 | the body loop computes exactly NodeListOf |
| NodeParser.OpArgsRoundTrip | src/parsers/node.rs:70-91 | printed inputs then settings are read back as both lists in order |
| NodeParser.AssignRoundTrip | src/parsers/node.rs:54-61 | a printed assign node is read back |
| NodeParser.OpNodeRoundTrip | src/parsers/node.rs:62-97 | a printed op node, `>>` output included, is read back |
| NodeParser.BranchRoundTrip | src/parsers/node.rs:98-120 | both branch forms are read back |
| NodeParser.DepRoundTrip | src/parsers/node.rs:125-136 | a printed `dep after(x) before(y);` is read back |
| NodeParser.TransferRoundTrip | src/parsers/node.rs:192-198 | a printed transfer node is read back |
| NodeParser.CacheReadRoundTrip | src/parsers/node.rs:20-26 | a printed `cache.read` node is read back |
| NodeParser.CacheWriteRoundTrip | src/parsers/node.rs:27-33 | a printed `cache.write` node is read back |
| NodeParser.CacheIncRoundTrip | src/parsers/node.rs:34-39 | a printed `cache.increment` node is read back with its amount |
| NodeParser.CacheDecRoundTrip | src/parsers/node.rs:40-45 | a printed `cache.decrement` node is read back with its amount |
| NodeParser.CacheResetRoundTrip | src/parsers/node.rs:46-50 | a printed `cache.reset` node is read back |
| NodeParser.YieldRoundTrip | src/parsers/node.rs:160-175 | a printed non-empty yield list is read back |
| NodeParser.AwaitRoundTrip | src/parsers/node.rs:176-191 | a printed non-empty await list is read back |
| NodeParser.BareRoundTrip | src/parsers/node.rs:121-124 | `barrier;` and `return;` are read back |
| NodeParser.LoopRoundTrip | src/parsers/node.rs:137-159 | a printed loop, its nested body included, is read back |
| NodeParser.NodeRoundTrip | src/parsers/node.rs:16-206 | every node the parser can produce is read back from its printed form, whatever follows |
| NodeParser.NodesRoundTrip | src/parsers/node.rs:150-152 | a printed node sequence is read back in order |
| NodeParser.UnknownNodeRejected | src/parsers/node.rs:203-205 | a word that is no node keyword is refused |
| NodeParser.UnknownCacheOpRejected | src/parsers/node.rs:51-53 | `cache.foo` is refused |
| NodeParser.PositionalAfterSettingRejected | src/parsers/node.rs:70-91 | an input after a setting is refused |
| NodeParser.BranchForms | src/parsers/node.rs:98-120 | `branch a;` is unconditional; `branch c a;` lacks its else block and is refused |
| NodeParser.DepOrderEnforced | src/parsers/node.rs:125-136 | `dep` needs `after` before `before` |
| NodeParser.TrailingCommaList | src/parsers/node.rs:163-170 | `a, ;` lists one name |
| NodeParser.DefaultCacheAmount | src/parsers/node.rs:34-39 | `cache.increment c;` steps by one |
| NodeParser.OpenLoopStartRejected | src/parsers/node.rs:137-159 | a loop range must name its start |
| SectionsParser.BindersOf | src/parsers/sections.rs:59-73 | binders exist exactly when a `(...)` group follows, are never empty, and `()` gives the source's error |
| SectionsParser.ParseBinderList | src/parsers/sections.rs:63-69 | the binder loop computes exactly NameListOf, the name-list reader it shares with `@auto_dim` |
| SectionsParser.DeclTailOf | src/parsers/sections.rs:74-90 | a declaration keeps its name, binders and dtype |
| SectionsParser.ParseVarDecls | src/parsers/sections.rs:47-50 | the declaration loop computes exactly VarDeclListOf |
| SectionsParser.MemoryKeywordOf | src/parsers/sections.rs:31-43 | the four kind keywords in order; otherwise the fallback demand for `persistent` |
| SectionsParser.MemorySectionOf | src/parsers/sections.rs:30-53 | the section's kind is the keyword it starts with |
| SectionsParser.SectionOf | src/parsers/sections.rs:13-23 | anything but a memory keyword or `block` is refused |
| SectionsParser.SectionsOf | src/parsers/sections.rs:10-26 | no input gives no sections; the section list is empty exactly when the input is |
| SectionsParser.ParseGraph | src/parsers/sections.rs:10-26 | the section loop computes exactly SectionsOf, error message included |
| Tokens.NamesRoundTrip | src/parsers/sections.rs:63-69 | a printed name list (prefix binders, and `@auto_dim` entries at src/attributes/mod.rs:60-65) is read back unchanged |
| SectionsParser.VarDeclRoundTrip | src/parsers/sections.rs:56-91 | a printed declaration with its shape and attributes is read back |
| SectionsParser.VarDeclsRoundTrip | src/parsers/sections.rs:47-50 | printed declarations are read back in order |
| SectionsParser.MemorySectionRoundTrip | src/parsers/sections.rs:30-53 | a printed memory section is read back |
| SectionsParser.BlockSectionRoundTrip | src/parsers/sections.rs:95-105 | a printed block, all its nodes included, is read back |
| SectionsParser.SectionsRoundTrip | src/parsers/sections.rs:10-26 | a printed program is read back section by section |
| SectionsParser.UnknownSectionRejected | src/parsers/sections.rs:21-23 | `foo { }` is refused |
| SectionsParser.EmptyBindersRejected | src/parsers/sections.rs:70-72 | `x(): f32;` is refused |
| SectionsParser.BindersWithoutCommas | src/parsers/sections.rs:63-69 | `(i j)` binds both names |
| MemoryCodegen.DTypeOf | src/codegen/memory.rs:7-35 | a dtype is found only under its own name; other names give `unsupported dtype` |
| MemoryCodegen.DTypeNameInjective | src/codegen/memory.rs:9-32 | no two dtypes share a name |
| MemoryCodegen.DTypeRoundTrip | src/codegen/memory.rs:9-32 | every dtype is found under its own name |
| MemoryCodegen.DTypeAccepted | src/codegen/memory.rs:7-35 | exactly the 23 names are accepted |
| MemoryCodegen.InitInt | src/codegen/memory.rs:72-73 | the literal read as i128, negated when signed; fails out of range or when negation overflows |
| MemoryCodegen.IntScalarOf | src/codegen/memory.rs:74-190 | an integer init is accepted exactly by an integer dtype whose range holds it; otherwise the dtype's range error or the type error |
| MemoryCodegen.InitExpr | src/codegen/memory.rs:37-205 | no init gives `None`; float, int and bool inits are accepted exactly by the dtypes the source lists |
| MemoryCodegen.IntInitValue | src/codegen/memory.rs:66-190 | an accepted integer init keeps its exact signed value |
| OpsValidation.SettingsOf | src/validation/ops/mod.rs:33-46 | succeeds exactly when names are distinct; the map holds each setting under its name and nothing else; a failure names a repeated setting |
| OpsValidation.SettingsFromContents | src/validation/ops/mod.rs:35-45 | a successful insertion keeps old entries and adds one per setting |
| OpsValidation.SettingsFromRepeat | src/validation/ops/mod.rs:37-42 | a failed insertion points at a repeated name |
| OpsValidation.SettingsMap.New | src/validation/ops/mod.rs:33-46 | the constructor's map is SettingsOf, error message included |
| OpsValidation.SettingsMap.TakeValue | src/validation/ops/accumulate.rs:12-12 | removes the named setting and returns its value exactly when present |
| OpsValidation.SettingsMap.EnsureEmpty | src/validation/ops/accumulate.rs:14-14 | passes exactly when no setting is left |
| OpsValidation.ValueAttrRoundTrip | src/validation/ops/mod.rs:65-108 | the value arm loses nothing: each setting value is recovered from its attribute |
| OpsValidation.AttrValueOf | src/validation/ops/mod.rs:49-109 | `acc` and `to` must be a dtype identifier; every other setting keeps its value |
| OpsValidation.DTypeSettingValue | src/validation/ops/mod.rs:50-55 | `acc = <dtype>` lowers to that dtype |
| OpsValidation.FirstAttrErrorFound | src/validation/ops/mod.rs:13-22 | the reported error belongs to a failing setting |
| OpsValidation.LowerThroughMap | src/validation/ops/mod.rs:11-22 | the settings lower exactly when every entry of their map does |
| OpsValidation.OpAttrsOf | src/validation/ops/mod.rs:10-26 | succeeds exactly when names are distinct and every setting lowers; duplicates are reported first |
| OpsValidation.OpAttrsItems | src/validation/ops/mod.rs:10-26 | one item per setting, under its name, holding its lowered value |
| OpsValidation.DrainAttrs | src/validation/ops/mod.rs:13-22 | draining lowers every entry, or fails with the error of some failing entry |
| OpsValidation.OpAttrsExpr | src/validation/ops/mod.rs:10-26 | the method agrees with OpAttrsOf on success and on duplicates; other errors come from a failing setting |
| OpBuilders.BuildAccumulate | src/validation/ops/accumulate.rs:10-36 | the method computes exactly AccumulateAttrsOf |
| OpBuilders.AccumulateAccepts | src/validation/ops/accumulate.rs:10-36 | accepted exactly when names are distinct, all are `acc`, and each names a dtype; another setting is reported as unsupported |
| OpBuilders.AccumulateWithoutAcc | src/validation/ops/accumulate.rs:16-18 | no settings give no attributes |
| OpBuilders.AccumulateDType | src/validation/ops/accumulate.rs:20-35 | `acc = <dtype>` selects that dtype |
| OpBuilders.AccumulateNeedsIdentifier | src/validation/ops/accumulate.rs:20-28 | an `acc` that is not an identifier is refused |
| OpBuilders.BuildFill | src/validation/ops/fill.rs:9-25 | the method computes exactly FillAttrsOf |
| OpBuilders.FillAccepts | src/validation/ops/fill.rs:9-25 | accepted exactly when names are distinct and all are `value`; a supplied value is passed through |
| OpBuilders.FillDefault | src/validation/ops/fill.rs:12-14 | without settings the value is 0.0 |
| OpBuilders.BuildRelu | src/validation/ops/relu.rs:9-32 | the method computes exactly ReluAttrsOf |
| OpBuilders.ReluAccepts | src/validation/ops/relu.rs:9-32 | accepted exactly when names are distinct and each is `alpha` or `clamp_max`; supplied values land in their slots |
| OpBuilders.ReluDefaults | src/validation/ops/relu.rs:12-19 | without settings alpha is 0.0 and clamp_max is +infinity |
| DimsCodegen.DimsExpr | src/codegen/dims.rs:4-22 | one string per dimension, the i-th being that dimension's rendering |
| DimsCodegen.DimsExprAppend | src/codegen/dims.rs:4-22 | lowering keeps the order of dimensions |
| DimsCodegen.DimStringReadBack | src/codegen/dims.rs:4-29 | a product's string splits back into its two factors; a name or a literal has no `*` |
| CacheCodegen.CacheAccessExpr | src/codegen/cache.rs:5-16 | always succeeds, copying the base, the bracketing and each index in order |
| CacheCodegen.IndexKindKept | src/codegen/cache.rs:18-35 | a single index stays single and a slice stays a slice with each bound's presence kept |
| CacheCodegen.CacheAccessRoundTrip | src/codegen/cache.rs:5-57 | the runtime access reads back as the access written |
| NodeCodegen.VarRefString | src/codegen/node.rs:267-279 | the method builds VarRefText; the string is the bare name exactly when there are no indices |
| NodeCodegen.JoinSplit | src/codegen/node.rs:275-275 | joining comma-free items with `,` and splitting gives them back |
| NodeCodegen.VarRefReadBack | src/codegen/node.rs:267-279 | an indexed reference is its name, `[`, the index strings joined by commas, `]` |
| NodeCodegen.RangeBoundSpelled | src/codegen/node.rs:260-265 | a loop bound read from the input renders as written: the identifier, the literal's digits, or `-` and the digits of a negative literal |
| NodeCodegen.NodeKindOf | src/codegen/node.rs:39-100 | fails only through an assign's dtype, an op's settings or a loop's body; every other node lowers |
| NodeCodegen.LoopPartsOf | src/codegen/node.rs:137-152 | a loop lowers exactly when its body does |
| NodeCodegen.LoopBodyExpr | src/codegen/node.rs:178-213 | the body loop computes exactly LoopBodyOf |
| NodeCodegen.BuiltNodeExpr | src/codegen/node.rs:181-205 | one body statement: a nested loop with its own body, else `make_node` |
| NodeCodegen.NodeStmtOf | src/codegen/node.rs:10-37 | a top-level loop is added prebuilt and any other node by kind, in the given block |
| NodeCodegen.LoopBodyShape | src/codegen/node.rs:178-213 | one built node per body node, in order; fails exactly when one does |
| NodeCodegen.NodeKindKeeps | src/codegen/node.rs:39-258 | each lowering keeps the node's variant and fields |
| NodeCodegen.LoopLoweringsAgree | src/codegen/node.rs:10-29 | a loop gets the same parts at the top of a block and nested in a body |
| GraphCodegen.FixedEntriesValues | src/codegen/mod.rs:51-59 | `@fixed` entries keep names and values in order; fails exactly when one is no usize |
| GraphCodegen.VarStmtOf | src/codegen/mod.rs:29-76 | `add_var` succeeds exactly when dtype, init and fixed entries do, and carries every field of the declaration: the checked init value, and each `@fixed` entry's name and value in order; an init error aborts with its own message |
| GraphCodegen.ExpandOf | src/codegen/mod.rs:15-93 | the graph is created first; expansion succeeds exactly when every section lowers |
| GraphCodegen.Expand | src/codegen/mod.rs:15-93 | the nested section, declaration and node loops compute exactly ExpandOf |
| GraphCodegen.SectionsAppend | src/codegen/mod.rs:20-85 | sections are lowered in source order |
| GraphCodegen.SectionsAllLower | src/codegen/mod.rs:20-85 | expansion succeeds exactly when every section lowers |
| GraphCodegen.MemorySectionShape | src/codegen/mod.rs:29-76 | one `add_var` per declaration, in order; fails exactly when one does |
| GraphCodegen.BlockNodesShape | src/codegen/mod.rs:80-83 | one statement per node, in order; fails exactly when one does |
| GraphCodegen.BlockSectionShape | src/codegen/mod.rs:77-84 | `add_block` comes before the block's node statements |

## Left out

- Lexing is not modelled. The input is a token tree. `true`/`false` are bool tokens and Rust keywords are keyword tokens; every other word, the DSL's own keywords included, is an identifier.
- Error messages are modelled as strings only. Spans, and the exact wording syn gives its own errors (`expected identifier`, `expected ;`, ...), are approximations.
- Tokens left over inside a delimited group: syn only records them when the group's inner parse buffer is dropped, and `parse2` reports them as `unexpected token` only after the whole top-level parse has succeeded. The model reports them at the group. So when a later error also exists, the source reports that later error and the model reports the leftover tokens.
- Floating-point values stay opaque: a float literal and its sign, or an infinity. No arithmetic is done on them, and none is needed. The `f32`/`f64` conversion of an `@init` float is not modelled.
- The generated Rust token streams are modelled as datatypes of the runtime calls they contain. The `quote!` text itself is not produced.
- `OpKind::from_name(...).expect(...)` runs in the generated program, not in the macro. The op kind stays the op's name.
- The runtime graph API (`Graph::new`, `add_var`, `make_node`, ...) is external. Its calls are constructors of `GraphStmt`, `NodeStmt` and `BuiltNode`.
- The `graph` entry point of lib.rs and the delivery of the result to the compiler are left out. They are glue around ParseGraph and Expand.
- OpsValidation.DrainAttrs: the source drains a HashMap, so which failing setting is reported first is unspecified. The method promises only that the error belongs to some failing setting. OpAttrsOf fixes one order, source order, for reasoning.
- The `drain()` loop empties the map; the model removes each entry as it is lowered, and the map ends empty either way.
- OpsValidation.SettingsMap.TakeValue and OpsValidation.SettingsMap.EnsureEmpty are called by the accumulate, fill and relu builders but are not defined in the source. Their behaviour is assumed from their names: remove and return one entry; fail when any entry is left. The error message for a leftover setting, `unsupported setting`, is likewise assumed.
- The source calls `SettingsMap::new` with two arguments in the builders and one in mod.rs. The model uses the one-argument form; the op name is not used.
- fill and relu pass the bare value to `attr_value_expr`, which takes a setting. The model lowers the value with the value arm (ValueAttr); it does not apply the `acc`/`to` dtype check, because no setting name is involved.
- A panic on integer negation overflow (`-value` for i64::MIN or i128::MIN) is modelled as an error result. Where syn's negative literal makes i64::MIN reachable, the model follows syn.
- SectionsParser.MemoryKeywordOf: when no kind keyword comes first, the source falls back to parsing `persistent`. That parse cannot succeed after the failed peeks, so it is modelled directly as the error.
- NodeCodegen.BuiltNodeExpr: the generated code for a nested loop binds `loop_body` before pushing the loop. The model records the loop with its lowered body and keeps no separate binding statement.
