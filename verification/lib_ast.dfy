/** The library's parse-tree-to-AST builder (`build_ast` in src/lib.rs): one
    concrete parse-tree node becomes one `AstNode`, by dispatch on its rule tag.
    A Rust panic (`expect`, `unwrap`) is a `Panicked` outcome. */
module LibAst {
  import opened RustCore
  import opened ParseTree
  import opened U32Text

  datatype AstNode =
    | Entity(ident: string, generics: Option<seq<AstNode>>, ports: seq<AstNode>, signals: seq<AstNode>)
    | Generic(items: seq<AstNode>)
    | Port(items: seq<AstNode>)
    | DefineSignal(ident: string, defType: AstNode)
    | DefineGeneric(ident: string, defType: AstNode, value: Option<AstNode>)
    | DefinePort(ident: string, direction: string, defType: AstNode)
    | Type(name: string, vector: Option<AstNode>)
    | Operation(left: AstNode, operator: string, right: AstNode)
    | Vector(start: AstNode, end: AstNode)
    | Str(text: string)
    | Int(number: u32)
    | Null

  const NoPair := Expect("no pair here: try make ast from it!")

  /** The four expression precedence tiers, which share one arm. */
  predicate IsTermTier(r: Rule) {
    r == max_term || r == min_term || r == minmin_term || r == term
  }

  /** The rule tags `build_ast` has an arm for; every other tag builds to `Null`. */
  predicate IsListedRule(r: Rule) {
    || r == entity || r == generics || r == ports || r == def_signal
    || r == type_def_generic || r == type_def || r == def_generic || r == def_port
    || r == vector || IsTermTier(r) || r == identifier || r == integer_value
  }

  /** `text.parse::<u32>().unwrap()`. */
  function UnwrapU32(text: string): Outcome<u32>
  {
    match ParseU32(text)
    case Parsed(v) => Ok(v)
    case ParseError(kind) => Panicked(UnwrapParseError(text, kind))
  }

  /** `build_ast`. */
  function Build(n: PNode): Outcome<AstNode>
    decreases n, |n.children| + 1
  {
    var cs := n.children;
    match n.rule
    case entity =>
      EntityArm(n)
    case generics =>
      var items :- BuildAll(n, |cs|);
      Ok(Generic(items))
    case ports =>
      var items :- BuildAll(n, |cs|);
      Ok(Port(items))
    case def_signal =>
      var t :- BuildItem(n, 1);
      Ok(DefineSignal(ChildText(cs, 0), t))
    case type_def_generic =>
      Ok(Type(n.text, None))
    case type_def =>
      if |cs| < 2 then Ok(Type(ChildText(cs, 0), None))
      else
        var v :- Build(cs[1]);
        Ok(Type(cs[0].text, Some(v)))
    case def_generic =>
      var t :- BuildItem(n, 1);
      if |cs| < 3 then Ok(DefineGeneric(ChildText(cs, 0), t, None))
      else
        var v :- UnwrapU32(cs[2].text);
        Ok(DefineGeneric(cs[0].text, t, Some(Int(v))))
    case def_port =>
      var t :- BuildItem(n, 2);
      Ok(DefinePort(ChildText(cs, 0), ChildText(cs, 1), t))
    case vector =>
      if |cs| == 0 then Panicked(UnwrapNone)
      else
        var s :- Build(cs[0]);
        if |cs| == 1 then Panicked(UnwrapNone)
        else
          var e :- Build(cs[1]);
          Ok(Vector(s, e))
    case max_term | min_term | minmin_term | term =>
      if |cs| == 0 then Panicked(Expect("first not found"))
      else if |cs| == 1 then Build(cs[0])
      else
        var l :- Build(cs[0]);
        if |cs| == 2 then Panicked(Expect("right not found"))
        else
          var r :- Build(cs[2]);
          Ok(Operation(l, cs[1].text, r))
    case identifier =>
      Ok(Str(n.text))
    case integer_value =>
      var v :- UnwrapU32(n.text);
      Ok(Int(v))
    case _ =>
      Ok(Null)
  }

  /** The `Rule::entity` arm: the identifier, then the block's children built
      in order and routed into generics, ports and signals. */
  function EntityArm(n: PNode): Outcome<AstNode>
    decreases n, 0
  {
    var cs := n.children;
    if |cs| == 0 then Panicked(Expect("entity ident not found"))
    else if |cs| == 1 then Panicked(Expect("entity_block not found"))
    else
      var built :- BuildAll(cs[1], |cs[1].children|);
      var parts := Route(built);
      Ok(Entity(cs[0].text, parts.generics, parts.ports, parts.signals))
  }

  /** `next_item`: build child `i`, or panic when the children have run out. */
  function BuildItem(p: PNode, i: nat): Outcome<AstNode>
    decreases p, 0
  {
    if i < |p.children| then Build(p.children[i]) else Panicked(NoPair)
  }

  /** `items_as_vector` over the first `k` children: each built in order,
      the first panic aborting the rest. */
  function BuildAll(p: PNode, k: nat): Outcome<seq<AstNode>>
    requires k <= |p.children|
    decreases p, k
  {
    if k == 0 then Ok([])
    else
      var xs :- BuildAll(p, k - 1);
      var x :- Build(p.children[k - 1]);
      Ok(xs + [x])
  }

  /** `parse`: the build of the first top-level pair; no pair at all is an `unwrap` on `None`. */
  function ParseTop(top: seq<PNode>): Outcome<AstNode>
  {
    if top == [] then Panicked(UnwrapNone) else Build(top[0])
  }

  // ---------------------------------------------------------------------------
  // Entity assembly: the loop over the children of the entity block.

  /** The three locals the entity arm updates while it walks the block. */
  datatype EntityParts = EntityParts(generics: Option<seq<AstNode>>, ports: seq<AstNode>, signals: seq<AstNode>)

  /** The locals before the loop: no generics, no ports, no signals. */
  const NoParts := EntityParts(None, [], [])

  /** One turn of the loop: route a built child by its variant. */
  function RouteOne(parts: EntityParts, a: AstNode): EntityParts
  {
    match a
    case Generic(v) => parts.(generics := Some(v))
    case Port(v) => parts.(ports := v)
    case DefineSignal(_, _) => parts.(signals := parts.signals + [a])
    case _ => parts
  }

  /** The locals after the loop has seen every built child in `built`. */
  function Route(built: seq<AstNode>): EntityParts
  {
    if built == [] then NoParts else RouteOne(Route(built[..|built| - 1]), built[|built| - 1])
  }

  /** The signals of `built`, in order: a plain filter. */
  function Signals(built: seq<AstNode>): seq<AstNode>
  {
    if built == [] then []
    else (if built[0].DefineSignal? then [built[0]] else []) + Signals(built[1..])
  }

  /** The `Rule::entity` arm as the source writes it: read the identifier,
      then let `WalkBlock` run the loop over the block's children. */
  method BuildEntity(n: PNode) returns (r: Outcome<AstNode>)
    requires n.rule == entity
    ensures r == Build(n)
  {
    assert Build(n) == EntityArm(n);
    var pairs := n.children;
    if |pairs| == 0 {
      return Panicked(Expect("entity ident not found"));
    }
    var ident := pairs[0].text;
    if |pairs| == 1 {
      return Panicked(Expect("entity_block not found"));
    }
    var walked := WalkBlock(pairs[1]);
    if walked.Panicked? {
      return Panicked(walked.panic);
    }
    var parts := walked.value;
    return Ok(Entity(ident, parts.generics, parts.ports, parts.signals));
  }

  /** The loop of the entity arm: build each child of the block in turn and
      update the mutable `generics`, `ports` and `signals` by its variant. */
  method WalkBlock(block: PNode) returns (r: Outcome<EntityParts>)
    ensures BuildAll(block, |block.children|).Panicked? ==>
      r == Panicked(BuildAll(block, |block.children|).panic)
    ensures BuildAll(block, |block.children|).Ok? ==>
      r == Ok(Route(BuildAll(block, |block.children|).value))
  {
    var generics: Option<seq<AstNode>> := None;
    var ports: seq<AstNode> := [];
    var signals: seq<AstNode> := [];
    for i := 0 to |block.children|
      invariant BuildAll(block, i).Ok?
      invariant EntityParts(generics, ports, signals) == Route(BuildAll(block, i).value)
    {
      var built := Build(block.children[i]);
      if built.Panicked? {
        BuildAllPanicSticks(block, i + 1, |block.children|);
        return Panicked(built.panic);
      }
      BuildAllStep(block, i);
      var a := built.value;
      if a.Generic? {
        generics := Some(a.items);
      } else if a.Port? {
        ports := a.items;
      } else if a.DefineSignal? {
        signals := signals + [DefineSignal(a.ident, a.defType)];
      }
    }
    return Ok(EntityParts(generics, ports, signals));
  }

  // ---------------------------------------------------------------------------
  // What a well-formed parse tree is, as far as `build_ast` is concerned.

  /** The shape `build_ast` relies on: every child it `expect`s or `unwrap`s is
      there, and every text it parses as a u32 is u32 text. */
  predicate Buildable(n: PNode)
    decreases n
  {
    var cs := n.children;
    match n.rule
    case entity =>
      2 <= |cs| && forall i :: 0 <= i < |cs[1].children| ==> Buildable(cs[1].children[i])
    case generics => forall i :: 0 <= i < |cs| ==> Buildable(cs[i])
    case ports => forall i :: 0 <= i < |cs| ==> Buildable(cs[i])
    case def_signal => 2 <= |cs| && Buildable(cs[1])
    case type_def => 2 <= |cs| ==> Buildable(cs[1])
    case def_generic => 2 <= |cs| && Buildable(cs[1]) && (3 <= |cs| ==> IsU32Text(cs[2].text))
    case def_port => 3 <= |cs| && Buildable(cs[2])
    case vector => 2 <= |cs| && Buildable(cs[0]) && Buildable(cs[1])
    case max_term | min_term | minmin_term | term =>
      || (|cs| == 1 && Buildable(cs[0]))
      || (3 <= |cs| && Buildable(cs[0]) && Buildable(cs[2]))
    case integer_value => IsU32Text(n.text)
    case _ => true
  }

  // ---------------------------------------------------------------------------
  // Properties.

  /** `items_as_vector` keeps one built node per child, in child order, and
      panics exactly when some child does, with the first such child's panic. */
  lemma {:induction false} BuildAllMeaning(p: PNode, k: nat)
    requires k <= |p.children|
    ensures BuildAll(p, k).Ok? <==> forall i :: 0 <= i < k ==> Build(p.children[i]).Ok?
    ensures BuildAll(p, k).Ok? ==>
      && |BuildAll(p, k).value| == k
      && forall i :: 0 <= i < k ==> BuildAll(p, k).value[i] == Build(p.children[i]).value
    ensures BuildAll(p, k).Panicked? ==>
      exists i :: 0 <= i < k && Build(p.children[i]).Panicked?
        && Build(p.children[i]).panic == BuildAll(p, k).panic
        && forall j :: 0 <= j < i ==> Build(p.children[j]).Ok?
  {
    if k > 0 {
      BuildAllMeaning(p, k - 1);
    }
  }

  /** One more child built: the routing advances by one turn of the loop. */
  lemma BuildAllStep(p: PNode, i: nat)
    requires i < |p.children| && BuildAll(p, i).Ok? && Build(p.children[i]).Ok?
    ensures BuildAll(p, i + 1) == Ok(BuildAll(p, i).value + [Build(p.children[i]).value])
    ensures Route(BuildAll(p, i + 1).value) == RouteOne(Route(BuildAll(p, i).value), Build(p.children[i]).value)
  {
    var xs := BuildAll(p, i).value;
    var ys := xs + [Build(p.children[i]).value];
    assert ys[..|ys| - 1] == xs;
  }

  /** Once a prefix of the children panics, building more of them keeps that panic. */
  lemma {:induction false} BuildAllPanicSticks(p: PNode, i: nat, k: nat)
    requires i <= k <= |p.children|
    requires BuildAll(p, i).Panicked?
    ensures BuildAll(p, k) == BuildAll(p, i)
    decreases k
  {
    if i < k {
      BuildAllPanicSticks(p, i, k - 1);
    }
  }

  /** `build_ast` succeeds exactly on parse trees of the shape it relies on. */
  lemma {:induction false} BuildSucceedsIff(n: PNode)
    ensures Build(n).Ok? <==> Buildable(n)
    decreases n
  {
    var cs := n.children;
    match n.rule
    case entity =>
      if 2 <= |cs| {
        var blk := cs[1];
        BuildAllMeaning(blk, |blk.children|);
        forall i | 0 <= i < |blk.children|
          ensures Build(blk.children[i]).Ok? <==> Buildable(blk.children[i])
        {
          BuildSucceedsIff(blk.children[i]);
        }
      }
    case generics =>
      BuildAllMeaning(n, |cs|);
      forall i | 0 <= i < |cs| ensures Build(cs[i]).Ok? <==> Buildable(cs[i]) {
        BuildSucceedsIff(cs[i]);
      }
    case ports =>
      BuildAllMeaning(n, |cs|);
      forall i | 0 <= i < |cs| ensures Build(cs[i]).Ok? <==> Buildable(cs[i]) {
        BuildSucceedsIff(cs[i]);
      }
    case def_signal =>
      if 2 <= |cs| { BuildSucceedsIff(cs[1]); }
    case type_def =>
      if 2 <= |cs| { BuildSucceedsIff(cs[1]); }
    case def_generic =>
      if 2 <= |cs| { BuildSucceedsIff(cs[1]); }
      if 3 <= |cs| { ParseU32Meaning(cs[2].text); }
    case def_port =>
      if 3 <= |cs| { BuildSucceedsIff(cs[2]); }
    case vector =>
      if 1 <= |cs| { BuildSucceedsIff(cs[0]); }
      if 2 <= |cs| { BuildSucceedsIff(cs[1]); }
    case max_term =>
      TermTierSucceedsIff(n);
    case min_term =>
      TermTierSucceedsIff(n);
    case minmin_term =>
      TermTierSucceedsIff(n);
    case term =>
      TermTierSucceedsIff(n);
    case integer_value =>
      ParseU32Meaning(n.text);
    case _ =>
  }

  lemma {:induction false} TermTierSucceedsIff(n: PNode)
    requires IsTermTier(n.rule)
    ensures Build(n).Ok? <==> Buildable(n)
    decreases n, 0
  {
    var cs := n.children;
    if 1 <= |cs| { BuildSucceedsIff(cs[0]); }
    if 3 <= |cs| { BuildSucceedsIff(cs[2]); }
  }

  /** Any rule tag without an arm, the top-level `vhdl` tag among them, builds
      to `Null` and never panics, whatever its children. */
  lemma UnlistedRuleBuildsNull(n: PNode)
    requires !IsListedRule(n.rule)
    ensures Build(n) == Ok(Null)
  {
  }

  /** `parse` builds the first top-level pair and ignores the rest. */
  lemma ParseTopBuildsFirst(top: seq<PNode>)
    ensures top == [] ==> ParseTop(top) == Panicked(UnwrapNone)
    ensures top != [] ==> ParseTop(top) == Build(top[0])
    ensures top != [] && top[0].rule == vhdl ==> ParseTop(top) == Ok(Null)
  {
  }

  /** Generics: `Some(v)` exactly when some built child is `Generic(v)`, the
      last such child winning; `None` when there is none. */
  lemma {:induction false} RouteGenerics(built: seq<AstNode>)
    ensures Route(built).generics.Some? <==> exists i :: 0 <= i < |built| && built[i].Generic?
    ensures forall i :: (0 <= i < |built| && built[i].Generic?
      && (forall j :: i < j < |built| ==> !built[j].Generic?)) ==>
        Route(built).generics == Some(built[i].items)
  {
    if built != [] {
      var m := |built| - 1;
      var front := built[..m];
      RouteGenerics(front);
      assert Route(built) == RouteOne(Route(front), built[m]);
      if built[m].Generic? {
        assert Route(built).generics == Some(built[m].items);
      } else {
        assert Route(built).generics == Route(front).generics;
        forall i | 0 <= i < m && built[i].Generic? && (forall j :: i < j < |built| ==> !built[j].Generic?)
          ensures Route(built).generics == Some(built[i].items)
        {
          assert front[i] == built[i];
          assert forall j :: i < j < m ==> front[j] == built[j];
        }
      }
    }
  }

  /** Ports: the empty sequence unless some built child is `Port(v)`, and then
      the `v` of the last such child. */
  lemma {:induction false} RoutePorts(built: seq<AstNode>)
    ensures (forall i :: 0 <= i < |built| ==> !built[i].Port?) ==> Route(built).ports == []
    ensures forall i :: (0 <= i < |built| && built[i].Port?
      && (forall j :: i < j < |built| ==> !built[j].Port?)) ==>
        Route(built).ports == built[i].items
  {
    if built != [] {
      var m := |built| - 1;
      var front := built[..m];
      RoutePorts(front);
      assert Route(built) == RouteOne(Route(front), built[m]);
      if built[m].Port? {
        assert Route(built).ports == built[m].items;
      } else {
        assert Route(built).ports == Route(front).ports;
        forall i | 0 <= i < m && built[i].Port? && (forall j :: i < j < |built| ==> !built[j].Port?)
          ensures Route(built).ports == built[i].items
        {
          assert front[i] == built[i];
          assert forall j :: i < j < m ==> front[j] == built[j];
        }
      }
    }
  }

  lemma {:induction false} SignalsAppend(built: seq<AstNode>, a: AstNode)
    ensures Signals(built + [a]) == Signals(built) + (if a.DefineSignal? then [a] else [])
  {
    if built != [] {
      assert (built + [a])[1..] == built[1..] + [a];
      SignalsAppend(built[1..], a);
    }
  }

  /** Signals: exactly the `DefineSignal` children, in their original order. */
  lemma {:induction false} RouteSignals(built: seq<AstNode>)
    ensures Route(built).signals == Signals(built)
  {
    if built != [] {
      var m := |built| - 1;
      RouteSignals(built[..m]);
      SignalsAppend(built[..m], built[m]);
      assert built[..m] + [built[m]] == built;
    }
  }

  /** The entity arm: the identifier is the first child's text, and the three
      fields are the routing of the block's children, built in order. */
  lemma EntityAssembly(n: PNode)
    requires n.rule == entity && Build(n).Ok?
    ensures 2 <= |n.children|
    ensures var blk := n.children[1];
      && BuildAll(blk, |blk.children|).Ok?
      && var parts := Route(BuildAll(blk, |blk.children|).value);
      && Build(n).value == Entity(n.children[0].text, parts.generics, parts.ports, parts.signals)
      && |BuildAll(blk, |blk.children|).value| == |blk.children|
      && (forall i :: 0 <= i < |blk.children| ==>
            Build(blk.children[i]).Ok? && BuildAll(blk, |blk.children|).value[i] == Build(blk.children[i]).value)
  {
    var blk := n.children[1];
    BuildAllMeaning(blk, |blk.children|);
  }

  /** A child that builds, and to a `Generic`. */
  predicate BuildsGeneric(c: PNode) {
    Build(c).Ok? && Build(c).value.Generic?
  }

  /** A child that builds, and to a `Port`. */
  predicate BuildsPort(c: PNode) {
    Build(c).Ok? && Build(c).value.Port?
  }

  /** The builds of the children in `cs` that are `DefineSignal`s, in order. */
  function ChildSignals(cs: seq<PNode>): seq<AstNode>
  {
    if cs == [] then []
    else
      var head := if Build(cs[0]).Ok? && Build(cs[0]).value.DefineSignal? then [Build(cs[0]).value] else [];
      head + ChildSignals(cs[1..])
  }

  lemma {:induction false} SignalsOfBuilds(built: seq<AstNode>, cs: seq<PNode>)
    requires |built| == |cs|
    requires forall i :: 0 <= i < |cs| ==> Build(cs[i]).Ok? && built[i] == Build(cs[i]).value
    ensures Signals(built) == ChildSignals(cs)
  {
    if cs != [] {
      SignalsOfBuilds(built[1..], cs[1..]);
    }
  }

  /** `RouteGenerics` restated over the children whose builds are `built`. */
  lemma GenericsOfBuilds(built: seq<AstNode>, cs: seq<PNode>)
    requires |built| == |cs|
    requires forall i :: 0 <= i < |cs| ==> Build(cs[i]).Ok? && built[i] == Build(cs[i]).value
    ensures Route(built).generics.Some? <==> exists i :: 0 <= i < |cs| && BuildsGeneric(cs[i])
    ensures forall i :: (0 <= i < |cs| && BuildsGeneric(cs[i])
      && (forall j :: i < j < |cs| ==> !BuildsGeneric(cs[j]))) ==>
        Route(built).generics == Some(Build(cs[i]).value.items)
  {
    RouteGenerics(built);
    forall i | 0 <= i < |cs|
      ensures built[i].Generic? <==> BuildsGeneric(cs[i])
    {
    }
  }

  /** `RoutePorts` restated over the children whose builds are `built`. */
  lemma PortsOfBuilds(built: seq<AstNode>, cs: seq<PNode>)
    requires |built| == |cs|
    requires forall i :: 0 <= i < |cs| ==> Build(cs[i]).Ok? && built[i] == Build(cs[i]).value
    ensures (forall i :: 0 <= i < |cs| ==> !BuildsPort(cs[i])) ==> Route(built).ports == []
    ensures forall i :: (0 <= i < |cs| && BuildsPort(cs[i])
      && (forall j :: i < j < |cs| ==> !BuildsPort(cs[j]))) ==>
        Route(built).ports == Build(cs[i]).value.items
  {
    RoutePorts(built);
    forall i | 0 <= i < |cs|
      ensures built[i].Port? <==> BuildsPort(cs[i])
    {
    }
  }

  /** A built entity's `generics` is `Some` exactly when some block child
      builds to a `Generic`, and then holds the items of the last one. */
  lemma EntityGenerics(n: PNode)
    requires n.rule == entity && Build(n).Ok?
    ensures 2 <= |n.children| && Build(n).value.Entity?
    ensures var cs := n.children[1].children;
      && (Build(n).value.generics.Some? <==> exists i :: 0 <= i < |cs| && BuildsGeneric(cs[i]))
      && forall i :: (0 <= i < |cs| && BuildsGeneric(cs[i])
        && (forall j :: i < j < |cs| ==> !BuildsGeneric(cs[j]))) ==>
          Build(n).value.generics == Some(Build(cs[i]).value.items)
  {
    EntityAssembly(n);
    var blk := n.children[1];
    GenericsOfBuilds(BuildAll(blk, |blk.children|).value, blk.children);
  }

  /** A built entity's `ports` is empty when no block child builds to a
      `Port`, and otherwise holds the items of the last one. */
  lemma EntityPorts(n: PNode)
    requires n.rule == entity && Build(n).Ok?
    ensures 2 <= |n.children| && Build(n).value.Entity?
    ensures var cs := n.children[1].children;
      && ((forall i :: 0 <= i < |cs| ==> !BuildsPort(cs[i])) ==> Build(n).value.ports == [])
      && forall i :: (0 <= i < |cs| && BuildsPort(cs[i])
        && (forall j :: i < j < |cs| ==> !BuildsPort(cs[j]))) ==>
          Build(n).value.ports == Build(cs[i]).value.items
  {
    EntityAssembly(n);
    var blk := n.children[1];
    PortsOfBuilds(BuildAll(blk, |blk.children|).value, blk.children);
  }

  /** A built entity's `signals` are the builds of its block children that
      are `DefineSignal`s, in child order. */
  lemma EntitySignals(n: PNode)
    requires n.rule == entity && Build(n).Ok?
    ensures 2 <= |n.children| && Build(n).value.Entity?
    ensures Build(n).value.signals == ChildSignals(n.children[1].children)
  {
    EntityAssembly(n);
    var blk := n.children[1];
    var built := BuildAll(blk, |blk.children|).value;
    RouteSignals(built);
    SignalsOfBuilds(built, blk.children);
  }

  /** `generics` and `ports` hold one built node per child, in child order. */
  lemma GenericsAndPortsItems(n: PNode)
    requires n.rule == generics || n.rule == ports
    ensures Build(n).Ok? <==> forall i :: 0 <= i < |n.children| ==> Build(n.children[i]).Ok?
    ensures Build(n).Ok? ==>
      && (if n.rule == generics then Build(n).value.Generic? else Build(n).value.Port?)
      && |Build(n).value.items| == |n.children|
      && forall i :: 0 <= i < |n.children| ==> Build(n).value.items[i] == Build(n.children[i]).value
  {
    BuildAllMeaning(n, |n.children|);
  }

  /** The precedence tiers: one child passes through unwrapped; three build
      one `Operation` whose operator is the middle child's text (never built);
      two panic once the left operand is built. */
  lemma TermTier(n: PNode)
    requires IsTermTier(n.rule)
    ensures |n.children| == 0 ==> Build(n) == Panicked(Expect("first not found"))
    ensures |n.children| == 1 ==> Build(n) == Build(n.children[0])
    ensures |n.children| == 2 ==> Build(n).Panicked?
    ensures |n.children| == 2 && Build(n.children[0]).Ok? ==> Build(n) == Panicked(Expect("right not found"))
    ensures 3 <= |n.children| && Build(n.children[0]).Ok? && Build(n.children[2]).Ok? ==>
      Build(n) == Ok(Operation(Build(n.children[0]).value, n.children[1].text, Build(n.children[2]).value))
  {
    var cs := n.children;
    if 3 <= |cs| && Build(cs[0]).Ok? && Build(cs[2]).Ok? {
      assert Build(n) == Ok(Operation(Build(cs[0]).value, cs[1].text, Build(cs[2]).value));
    }
  }

  /** Leaves: an `identifier` is its own text; an `integer_value` is the u32
      its text spells, and panics when the text is not u32 text. */
  lemma Leaves(n: PNode)
    ensures n.rule == identifier ==> Build(n) == Ok(Str(n.text))
    ensures n.rule == integer_value ==> (Build(n).Ok? <==> IsU32Text(n.text))
    ensures n.rule == integer_value && Build(n).Ok? ==>
      Build(n).value.Int? && Build(n).value.number as int == Value(Unsigned(n.text))
    ensures n.rule == integer_value && Build(n).Panicked? ==>
      Build(n).panic == UnwrapParseError(n.text, ParseU32(n.text).kind)
  {
    ParseU32Meaning(n.text);
  }

  /** Field presence of the type and declaration arms. */
  lemma TypeFields(n: PNode)
    ensures n.rule == type_def_generic ==> Build(n) == Ok(Type(n.text, None))
    ensures n.rule == type_def && Build(n).Ok? ==>
      && Build(n).value.Type?
      && Build(n).value.name == ChildText(n.children, 0)
      && (Build(n).value.vector.Some? <==> 2 <= |n.children|)
      && (2 <= |n.children| ==> Build(n).value.vector == Some(Build(n.children[1]).value))
    ensures n.rule == type_def && |n.children| < 2 ==> Build(n).Ok?
  {
  }

  lemma DefGenericFields(n: PNode)
    requires n.rule == def_generic
    ensures |n.children| < 2 ==> Build(n) == Panicked(NoPair)
    ensures Build(n).Ok? ==> 2 <= |n.children| && Build(n.children[1]).Ok? && Build(n).value.DefineGeneric?
    ensures Build(n).Ok? ==>
      && Build(n).value.ident == n.children[0].text
      && Build(n).value.defType == Build(n.children[1]).value
      && (Build(n).value.value.Some? <==> 3 <= |n.children|)
    ensures Build(n).Ok? && 3 <= |n.children| ==>
      && IsU32Text(n.children[2].text)
      && Build(n).value.value.value.Int?
      && Build(n).value.value.value.number as int == Value(Unsigned(n.children[2].text))
  {
    if 2 <= |n.children| {
      assert BuildItem(n, 1) == Build(n.children[1]);
    }
    if 3 <= |n.children| {
      ParseU32Meaning(n.children[2].text);
    }
  }

  /** `def_signal`: the identifier is the first child's text ("None" when
      absent); the type is the build of the second child, which must exist. */
  lemma DefSignalFields(n: PNode)
    requires n.rule == def_signal
    ensures Build(n).Ok? <==> 2 <= |n.children| && Build(n.children[1]).Ok?
    ensures Build(n).Ok? ==> Build(n).value == DefineSignal(n.children[0].text, Build(n.children[1]).value)
    ensures |n.children| < 2 ==> Build(n) == Panicked(NoPair)
  {
  }

  /** `def_port` copies the direction text verbatim, whatever it is, and
      needs all three children: with fewer, the cursor yields "None" for the
      direction but the type child is missing too, so the build panics. */
  lemma DefPortFields(n: PNode)
    requires n.rule == def_port
    ensures Build(n).Ok? <==> 3 <= |n.children| && Build(n.children[2]).Ok?
    ensures Build(n).Ok? ==>
      Build(n).value == DefinePort(n.children[0].text, n.children[1].text, Build(n.children[2]).value)
  {
  }

  /** `vector` needs two children and builds them, in order, as start and end. */
  lemma VectorFields(n: PNode)
    requires n.rule == vector
    ensures Build(n).Ok? <==> 2 <= |n.children| && Build(n.children[0]).Ok? && Build(n.children[1]).Ok?
    ensures Build(n).Ok? ==>
      Build(n).value == Vector(Build(n.children[0]).value, Build(n.children[1]).value)
    ensures |n.children| < 2 && (|n.children| == 0 || Build(n.children[0]).Ok?) ==>
      Build(n) == Panicked(UnwrapNone)
  {
  }
}
