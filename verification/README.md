# VHDL parse-tree-to-AST builders, modelled in Dafny

The system turns a subset of VHDL (entity declarations with generics, ports,
signals, typed bit-vector ranges and arithmetic bound expressions) into an
abstract syntax tree that is then serialised as JSON. A grammar engine first
produces a concrete parse tree: every node carries a grammar-rule tag, the
exact text it matched and its children in order. The builder walks that tree
and dispatches on the rule tag to produce one `AstNode` per node.

There are two builders, and this project models both:

- `build_ast` in `src/lib.rs`, the library's builder (module `LibAst`). It
  assembles entities from their generics, ports and signals. It builds vector
  ranges, arithmetic `Operation` nodes over four precedence tiers, identifier
  and integer leaves, and falls back to `Null` for every other rule.
- `build_ast_from_expr` in `src/main.rs`, the older builder of the
  command-line program (module `LegacyAst`). Its AST keeps raw text for vector
  bounds and generic defaults, and wraps the entity block in `UniqueTerms`.

Files:

- `rust_core.dfy` (`RustCore`): `Option`, and `Outcome`. An `Outcome` is
  either the value a builder returns or the `Panic` that aborts it: `expect`
  with the source's message, `unwrap` on `None`, or `unwrap` of a failed
  `parse::<u32>()`.
- `parse_tree.dfy` (`ParseTree`): the concrete tree `PNode(rule, text,
  children)`. The closed `Rule` enumeration spells every tag the builders name
  exactly as the grammar does, and adds `other` for all the rest. `ChildText`
  is `next_item_as_string`: it gives the literal `"None"` when a child is
  missing.
- `u32_text.dfy` (`U32Text`): Rust's `str::parse::<u32>()`. It accepts an
  optional `+` and then decimal digits, and scans them left to right. It
  reports `Empty`, `InvalidDigit` or `PosOverflow`, whichever problem it meets
  first. The error kinds are those of current Rust releases, where a
  lone `+` or `-` is `InvalidDigit`; older releases reported `Empty` for a
  lone sign, and the crate pins no toolchain. Only the error kind inside an
  `unwrap` panic depends on this.
- `lib_ast.dfy` (`LibAst`): the library's `AstNode` and `Build`. The entity
  arm appears twice:
  - `BuildEntity` and `WalkBlock` are the arm as the source writes it.
    `WalkBlock` is the loop that updates three mutable locals, and
    `BuildEntity` is proved equal to `Build`.
  - `Route` is the same loop as a left fold, and the lemmas about the entity
    are stated over it.
- `legacy_ast.dfy` (`LegacyAst`): the older `AstNode` and `Build`.
- `counter_scenario.dfy` (`CounterScenario`): both builders applied to the
  parse tree of a `Counter` entity.

The `Pairs` cursor that the Rust code advances with `next()` is modelled as
positional indexing. The i-th `next()` reads `children[i]`. Once the children
run out, every later `next()` returns `None`. The order in which Rust
evaluates the fields of a struct literal decides which panic wins when more
than one child is missing, and the model keeps that order. For example, a term
tier with two children first builds its left operand, and only then panics
with "right not found".

Some of the code's behaviour is easy to misread; the model follows the code:

- An entity whose block holds a `generics` child with no declarations gets
  `generics == Some([])`. It is not collapsed to "absent".
- Port directions are copied as raw text and never validated. When the
  direction child is missing the cursor yields `"None"` for it, but the type
  child is missing too, so the build panics: a built port always carries the
  second child's text.
- In `src/lib.rs` the default value of a generic is parsed as a `u32` and
  stored as an `Int` node. A default that is not u32 text makes the build
  panic. Only `src/main.rs` keeps the raw text.
- In `src/lib.rs` a bound or operand is an `Int` or a `Str` leaf according to
  its rule tag (`integer_value` or `identifier`). The builder never tries to
  parse the text to decide.
- Neither builder constructs state machines, states or transitions.
  `src/lib.rs` has no such variants. In `src/main.rs` they are declared but
  no arm builds them.
- In `src/lib.rs` every entity has a `signals` field. It is always present.

## Model

| member | source | states |
|---|---|---|
| `U32Text.ParseU32Meaning` | src/lib.rs:207-209 | `parse::<u32>()` succeeds exactly on an optional `+` followed by one or more digits worth less than 2^32, and then returns the value of those digits; it reports `Empty` exactly for the empty text |
| `U32Text.ParseErrorKinds` | src/lib.rs:207-209 | the error kind of a failed `parse::<u32>()`: `PosOverflow` exactly when the leading run of digits (after an optional `+`) is worth 2^32 or more; `InvalidDigit` exactly for a lone sign, or when a non-digit ends that run while its value still fits |
| `U32Text.ParseDecimalText` | src/lib.rs:169 | printing any u32 in decimal and parsing it back gives the same number |
| `LibAst.BuildSucceedsIff` | src/lib.rs:73-211 | `build_ast` returns without panicking exactly on trees of the shape it relies on (`Buildable`): every child it `expect`s or `unwrap`s is there, and every text it parses as a u32 is u32 text, at every depth |
| `LibAst.BuildAllMeaning` | src/lib.rs:88-94 | `items_as_vector` gives one built node per child, in child order, so the length equals the child count; it panics exactly when some child does, with the first failing child's panic |
| `LibAst.BuildAllPanicSticks` | src/lib.rs:105-106 | once building a prefix of the block's children panics, building the rest keeps that panic |
| `LibAst.BuildEntity` | src/lib.rs:96-126 | the entity arm, which reads the identifier, runs the loop over the block and assembles the `Entity`, gives exactly the result of `Build`, the two "not found" panics included |
| `LibAst.WalkBlock` | src/lib.rs:100-118 | the loop, which builds each block child in turn and updates `generics`, `ports` and `signals` in place, panics with the first failing child's panic, and otherwise ends with exactly the routing (`Route`) of the built children |
| `LibAst.EntityAssembly` | src/lib.rs:97-127 | a built entity has at least two children; its identifier is the first child's text, and its three fields are the routing of the block's children, each built in order |
| `LibAst.RouteGenerics` | src/lib.rs:101-108 | `generics` is `Some` exactly when some block child built to `Generic(v)`, even when `v` is empty; it then holds the `v` of the last such child, and otherwise it is `None` |
| `LibAst.RoutePorts` | src/lib.rs:102-110 | `ports` is empty unless some block child built to `Port(v)`, and then it is the `v` of the last such child; other variants are ignored |
| `LibAst.RouteSignals` | src/lib.rs:103-117 | `signals` is exactly the `DefineSignal` children of the block in their original order, and nothing else |
| `LibAst.EntityGenerics` | src/lib.rs:100-108 | a built entity's `generics` is `Some` exactly when some block child builds to `Generic`, and then holds the items of the last such child |
| `LibAst.EntityPorts` | src/lib.rs:101-110 | a built entity's `ports` is empty when no block child builds to `Port`, and otherwise holds the items of the last such child |
| `LibAst.EntitySignals` | src/lib.rs:102-117 | a built entity's `signals` are the builds of its block children that are `DefineSignal`s, in child order |
| `LibAst.GenericsAndPortsItems` | src/lib.rs:128-131 | `generics` and `ports` give `Generic` and `Port` holding one built node per child, in child order, and succeed exactly when every child does |
| `LibAst.DefSignalFields` | src/lib.rs:132-138 | `def_signal` has the first child's text as identifier and the build of the second child as type; without a second child it panics |
| `LibAst.TypeFields` | src/lib.rs:139-159 | `type_def_generic` is `Type` named by its whole matched text with no vector; `type_def` has `vector == Some(build of child 1)` exactly when a second child exists, and a name of `"None"` when it has no children |
| `LibAst.DefGenericFields` | src/lib.rs:160-173 | `def_generic` needs a second child for its type; its `value` is `Some(Int(n))` exactly when a third child exists, with `n` the u32 value of that child's text |
| `LibAst.DefPortFields` | src/lib.rs:174-181 | `def_port` succeeds exactly when a third child exists and builds; the direction is the second child's raw text, whatever that text is |
| `LibAst.VectorFields` | src/lib.rs:182-188 | `vector` succeeds exactly when two children exist and both build, and then gives `Vector(build c0, build c1)` in that order; with fewer children it is an `unwrap` on `None`, unless the first child's build panics first |
| `LibAst.TermTier` | src/lib.rs:189-203 | in each of the four precedence tiers, one child builds to exactly that child's build with no wrapping; three children give `Operation(build c0, text of c1, build c2)`; two children panic with "right not found" once the left operand is built; no child panics with "first not found" |
| `LibAst.Leaves` | src/lib.rs:204-209 | `identifier` builds to `Str` of exactly its matched text; `integer_value` builds to the `Int` its text spells, and panics exactly when the text is not u32 text, with that text and the parse's error kind |
| `LibAst.UnlistedRuleBuildsNull` | src/lib.rs:210 | any rule tag without an arm, `vhdl` and `entity_block` included, builds to `Null` whatever its children, and never panics |
| `LibAst.ParseTopBuildsFirst` | src/lib.rs:68-71 | `parse` builds the first top-level pair only; if that pair is tagged `vhdl`, the result is `Null` |
| `LegacyAst.BuildSucceedsIff` | src/main.rs:89-184 | `build_ast_from_expr` returns without panicking exactly on trees whose `expect`ed children are all present (`Buildable`), at every depth |
| `LegacyAst.BuildAllMeaning` | src/main.rs:103-109 | `items_as_vector` gives one built node per child in child order, and panics exactly when some child does |
| `LegacyAst.OnlyBuiltVariantsProduced` | src/main.rs:111-183 | no build, at any depth, contains `Terms`, `Gen`, `Architecture`, `StateMachine`, `State` or any transition variant: the later arm that would build `Terms` from `generics` or `ports` is shadowed by the earlier arms, and no arm constructs the others |
| `LegacyAst.GenericsAndPortsKeepFirst` | src/main.rs:119-122 | `generics` and `ports` wrap the build of their first child only; two nodes with the same first child build alike, whatever follows |
| `LegacyAst.GenericsAndPortsNeedAChild` | src/main.rs:100-102 | `generics` or `ports` without a child panics with "no pair here" |
| `LegacyAst.EntityBlockItems` | src/main.rs:179-180 | `entity_block` builds to `UniqueTerms` holding one built node per child, in order |
| `LegacyAst.EntityFields` | src/main.rs:112-118 | `entity` has the first child's text as identifier, and its terms are the build of the second child; without a second child it panics |
| `LegacyAst.VectorRawText` | src/main.rs:167-173 | `vector` never panics; its bounds are the raw texts of the first two children, `"None"` for a missing one, with no numeric conversion |
| `LegacyAst.DefGenericFields` | src/main.rs:139-158 | `def_generic` needs a second child for its type; its value is `Some` of the third child's raw text exactly when that child exists |
| `LegacyAst.DefPortFields` | src/main.rs:159-166 | `def_port` succeeds exactly when a third child exists and builds; the direction is the second child's raw text, whatever that text is |
| `LegacyAst.TypeFields` | src/main.rs:123-138 | `type_def` has a vector exactly when a second child exists, built from it |
| `LegacyAst.UnlistedRuleBuildsNull` | src/main.rs:182 | every rule tag without a reachable arm builds to `Null` |
| `LegacyAst.ParseTopBuildsFirst` | src/main.rs:84-87 | `parse` builds the first top-level pair only |
| `CounterScenario.LibCounter` | src/lib.rs:97-209 | the `Counter` entity builds to one generic `WIDTH` of type `integer` with default `Int(8)`, and two ports: `CLK` with a scalar type, and `Q` with the bound `Vector(Operation(Str WIDTH, "-", Int 1), Int 0)` |
| `CounterScenario.LegacyCounter` | src/main.rs:111-183 | the older builder turns the same tree into `UniqueTerms` of `Generics` and `Ports`, each wrapping only its list's first declaration, with the default `"8"` kept as text |

## Left out

- The grammar and the generated parser (`GenParser` with `vhdl.pest`). The
  grammar file is not part of this model. The concrete tree is an input, and
  the model proves nothing about which trees the grammar can produce.
- Both files generate their own `Rule` enumeration from the grammar. The model
  uses a single enumeration for both, with `other` standing for every tag
  neither builder names.
- JSON serialisation and deserialisation through serde (`vhdl_to_json`,
  `#[serde(untagged)]`, `to_string`, `to_string_pretty`, `from_str`). They are
  library code, and the untagged shape inference is not visible. Round-trip
  and shape-distinctness properties of the JSON form are therefore not
  modelled. `vhdl_to_json` only passes a grammar error through unchanged.
- The foreign-call entry point `rust_vhdl_as_json` and its C header. It works
  with raw pointers, `CString::into_raw` ownership transfer and unsafe code.
- Command-line handling and file I/O: `read_file`, `vhdl_file_to_json`, `help`
  and `main` in both binaries. These count arguments, print and read files.
- Grammar errors from the parser. A `parse` call that the grammar rejects
  never reaches the builder, so `ParseTop` starts from the tree of a
  successful parse.
- The texts of panic messages are kept only as the `expect` strings and the
  error kind. The model does not reproduce Rust's exact formatting of an
  `unwrap` failure.
- `LegacyAst.Build` does not contain the `generics | ports => Terms` arm. It
  is unreachable, and Dafny rejects a redundant match case.
  `OnlyBuiltVariantsProduced` proves that `Terms` never appears.
