/** The older builder of the command-line program (`build_ast_from_expr` in
    src/main.rs). Its AST keeps raw text for vector bounds and generic
    defaults, and wraps child lists in `UniqueTerms`. */
module LegacyAst {
  import opened RustCore
  import opened ParseTree

  /** The program's `AstNode`. `Gen`, `Architecture`, `StateMachine`, `State`,
      the four transition variants and `Terms` are declared but never built. */
  datatype AstNode =
    | Gen(entity: AstNode, architecture: AstNode)
    | Entity(ident: string, terms: AstNode)
    | Generics(inner: AstNode)
    | Ports(inner: AstNode)
    | Architecture(body: AstNode)
    | StateMachine(ident: string, sensibility: AstNode, terms: AstNode)
    | State(ident: string, terms: AstNode)
    | TransitionSimple(activator: Option<AstNode>, to: AstNode)
    | TransitionComposed(terms: AstNode)
    | TransitionActived(trigger: AstNode, to: AstNode)  // `activator` in the source, renamed: TransitionSimple's has another type
    | TransitionLast(to: AstNode)
    | Type(name: string, vector: Option<AstNode>)
    | DefineGeneric(ident: string, defType: AstNode, value: Option<string>)
    | DefinePort(ident: string, direction: string, defType: AstNode)
    | Vector(start: string, end: string)
    | Terms(items: seq<AstNode>)
    | UniqueTerms(items: seq<AstNode>)
    | Null

  const NoPair := Expect("no pair here: try make ast from it!")

  /** The rule tags `build_ast_from_expr` has a reachable arm for. */
  predicate IsListedRule(r: Rule) {
    || r == entity || r == generics || r == ports || r == type_def
    || r == def_generic || r == def_port || r == vector || r == entity_block
  }

  /** `build_ast_from_expr`. The source's later `generics | ports => Terms`
      arm is not written here: the earlier `generics` and `ports` arms always
      match first, so it can never run. */
  function Build(n: PNode): Outcome<AstNode>
    decreases n, |n.children| + 1
  {
    var cs := n.children;
    match n.rule
    case entity =>
      var t :- BuildItem(n, 1);
      Ok(Entity(ChildText(cs, 0), t))
    case generics =>
      var t :- BuildItem(n, 0);
      Ok(Generics(t))
    case ports =>
      var t :- BuildItem(n, 0);
      Ok(Ports(t))
    case type_def =>
      if |cs| < 2 then Ok(Type(ChildText(cs, 0), None))
      else
        var v :- Build(cs[1]);
        Ok(Type(cs[0].text, Some(v)))
    case def_generic =>
      var t :- BuildItem(n, 1);
      Ok(DefineGeneric(ChildText(cs, 0), t, if |cs| < 3 then None else Some(cs[2].text)))
    case def_port =>
      var t :- BuildItem(n, 2);
      Ok(DefinePort(ChildText(cs, 0), ChildText(cs, 1), t))
    case vector =>
      Ok(Vector(ChildText(cs, 0), ChildText(cs, 1)))
    case entity_block =>
      var items :- BuildAll(n, |cs|);
      Ok(UniqueTerms(items))
    case _ =>
      Ok(Null)
  }

  /** `next_item`: build child `i`, or panic when the children have run out. */
  function BuildItem(p: PNode, i: nat): Outcome<AstNode>
    decreases p, 0
  {
    if i < |p.children| then Build(p.children[i]) else Panicked(NoPair)
  }

  /** `items_as_vector` over the first `k` children. */
  function BuildAll(p: PNode, k: nat): Outcome<seq<AstNode>>
    requires k <= |p.children|
    decreases p, k
  {
    if k == 0 then Ok([])
    else
      var xs :- BuildAll(p, k - 1);
      var x :- Build(p.children[k - 1]);
      Ok(xs + [x])
  }

  /** `parse`: the build of the first top-level pair. */
  function ParseTop(top: seq<PNode>): Outcome<AstNode>
  {
    if top == [] then Panicked(UnwrapNone) else Build(top[0])
  }

  /** The shape `build_ast_from_expr` relies on: every child it `expect`s is there. */
  predicate Buildable(n: PNode)
    decreases n
  {
    var cs := n.children;
    match n.rule
    case entity => 2 <= |cs| && Buildable(cs[1])
    case generics => 1 <= |cs| && Buildable(cs[0])
    case ports => 1 <= |cs| && Buildable(cs[0])
    case type_def => 2 <= |cs| ==> Buildable(cs[1])
    case def_generic => 2 <= |cs| && Buildable(cs[1])
    case def_port => 3 <= |cs| && Buildable(cs[2])
    case entity_block => forall i :: 0 <= i < |cs| ==> Buildable(cs[i])
    case _ => true
  }

  /** The variants some arm constructs, everywhere in a tree. */
  predicate OnlyBuiltVariants(a: AstNode)
  {
    match a
    case Entity(_, t) => OnlyBuiltVariants(t)
    case Generics(t) => OnlyBuiltVariants(t)
    case Ports(t) => OnlyBuiltVariants(t)
    case Type(_, v) => v.None? || OnlyBuiltVariants(v.value)
    case DefineGeneric(_, t, _) => OnlyBuiltVariants(t)
    case DefinePort(_, _, t) => OnlyBuiltVariants(t)
    case Vector(_, _) => true
    case UniqueTerms(items) => forall i :: 0 <= i < |items| ==> OnlyBuiltVariants(items[i])
    case Null => true
    case _ => false
  }

  // ---------------------------------------------------------------------------
  // Properties.

  /** `items_as_vector` keeps one built node per child, in child order. */
  lemma {:induction false} BuildAllMeaning(p: PNode, k: nat)
    requires k <= |p.children|
    ensures BuildAll(p, k).Ok? <==> forall i :: 0 <= i < k ==> Build(p.children[i]).Ok?
    ensures BuildAll(p, k).Ok? ==>
      && |BuildAll(p, k).value| == k
      && forall i :: 0 <= i < k ==> BuildAll(p, k).value[i] == Build(p.children[i]).value
    ensures BuildAll(p, k).Panicked? ==>
      exists i :: 0 <= i < k && Build(p.children[i]).Panicked?
        && Build(p.children[i]).panic == BuildAll(p, k).panic
        && forall j :: 0 <= j < i ==> Build(p.children[j]).Ok?
  {
    if k > 0 {
      BuildAllMeaning(p, k - 1);
    }
  }

  /** `build_ast_from_expr` succeeds exactly on parse trees of the shape it relies on. */
  lemma {:induction false} BuildSucceedsIff(n: PNode)
    ensures Build(n).Ok? <==> Buildable(n)
    decreases n
  {
    var cs := n.children;
    match n.rule
    case entity =>
      if 2 <= |cs| { BuildSucceedsIff(cs[1]); }
    case generics =>
      if 1 <= |cs| { BuildSucceedsIff(cs[0]); }
    case ports =>
      if 1 <= |cs| { BuildSucceedsIff(cs[0]); }
    case type_def =>
      if 2 <= |cs| { BuildSucceedsIff(cs[1]); }
    case def_generic =>
      if 2 <= |cs| { BuildSucceedsIff(cs[1]); }
    case def_port =>
      if 3 <= |cs| { BuildSucceedsIff(cs[2]); }
    case entity_block =>
      BuildAllMeaning(n, |cs|);
      forall i | 0 <= i < |cs| ensures Build(cs[i]).Ok? <==> Buildable(cs[i]) {
        BuildSucceedsIff(cs[i]);
      }
    case _ =>
  }

  /** No build produces `Terms`, `Gen`, `Architecture`, `StateMachine`,
      `State` or a transition, at any depth of the tree. */
  lemma {:induction false} OnlyBuiltVariantsProduced(n: PNode)
    requires Build(n).Ok?
    ensures OnlyBuiltVariants(Build(n).value)
    decreases n
  {
    var cs := n.children;
    match n.rule
    case entity =>
      OnlyBuiltVariantsProduced(cs[1]);
    case generics =>
      OnlyBuiltVariantsProduced(cs[0]);
    case ports =>
      OnlyBuiltVariantsProduced(cs[0]);
    case type_def =>
      if 2 <= |cs| { OnlyBuiltVariantsProduced(cs[1]); }
    case def_generic =>
      OnlyBuiltVariantsProduced(cs[1]);
    case def_port =>
      OnlyBuiltVariantsProduced(cs[2]);
    case entity_block =>
      BuildAllMeaning(n, |cs|);
      forall i | 0 <= i < |cs| ensures OnlyBuiltVariants(Build(cs[i]).value) {
        OnlyBuiltVariantsProduced(cs[i]);
      }
    case _ =>
  }

  /** Every rule tag without a reachable arm builds to `Null`. */
  lemma UnlistedRuleBuildsNull(n: PNode)
    requires !IsListedRule(n.rule)
    ensures Build(n) == Ok(Null)
  {
  }

  /** `parse` builds the first top-level pair and ignores the rest. */
  lemma ParseTopBuildsFirst(top: seq<PNode>)
    ensures top == [] ==> ParseTop(top) == Panicked(UnwrapNone)
    ensures top != [] ==> ParseTop(top) == Build(top[0])
    ensures top != [] && top[0].rule == vhdl ==> ParseTop(top) == Ok(Null)
  {
  }

  /** `generics` and `ports` wrap the build of their first child only: later
      children make no difference, and without a child the build panics. */
  lemma GenericsAndPortsKeepFirst(n: PNode, m: PNode)
    requires n.rule == generics || n.rule == ports
    requires m.rule == n.rule && 1 <= |m.children| && 1 <= |n.children| && m.children[0] == n.children[0]
    ensures Build(n) == Build(m)
    ensures Build(n).Ok? <==> Build(n.children[0]).Ok?
    ensures Build(n).Ok? ==>
      Build(n).value == (if n.rule == generics then Generics(Build(n.children[0]).value)
                         else Ports(Build(n.children[0]).value))
  {
  }

  lemma GenericsAndPortsNeedAChild(n: PNode)
    requires n.rule == generics || n.rule == ports
    requires n.children == []
    ensures Build(n) == Panicked(NoPair)
  {
  }

  /** `entity_block` holds one built node per child, in order. */
  lemma EntityBlockItems(n: PNode)
    requires n.rule == entity_block
    ensures Build(n).Ok? <==> forall i :: 0 <= i < |n.children| ==> Build(n.children[i]).Ok?
    ensures Build(n).Ok? ==>
      && Build(n).value.UniqueTerms?
      && |Build(n).value.items| == |n.children|
      && forall i :: 0 <= i < |n.children| ==> Build(n).value.items[i] == Build(n.children[i]).value
  {
    BuildAllMeaning(n, |n.children|);
  }

  /** `entity`: the identifier is the first child's text ("None" if absent);
      the terms are the build of the second child, which must exist. */
  lemma EntityFields(n: PNode)
    requires n.rule == entity
    ensures Build(n).Ok? <==> 2 <= |n.children| && Build(n.children[1]).Ok?
    ensures Build(n).Ok? ==> Build(n).value == Entity(n.children[0].text, Build(n.children[1]).value)
    ensures |n.children| < 2 ==> Build(n) == Panicked(NoPair)
  {
  }

  /** `vector` never fails: its bounds are the raw texts of the first two
      children, "None" for a missing one, with no numeric conversion. */
  lemma VectorRawText(n: PNode)
    requires n.rule == vector
    ensures Build(n).Ok? && Build(n).value.Vector?
    ensures Build(n).value.start == (if 1 <= |n.children| then n.children[0].text else "None")
    ensures Build(n).value.end == (if 2 <= |n.children| then n.children[1].text else "None")
  {
  }

  /** `def_generic`: the default value is the third child's raw text exactly
      when that child exists; the type is the build of the second child. */
  lemma DefGenericFields(n: PNode)
    requires n.rule == def_generic
    ensures Build(n).Ok? <==> 2 <= |n.children| && Build(n.children[1]).Ok?
    ensures Build(n).Ok? ==>
      && Build(n).value.DefineGeneric?
      && Build(n).value.ident == n.children[0].text
      && Build(n).value.defType == Build(n.children[1]).value
      && (Build(n).value.value.Some? <==> 3 <= |n.children|)
      && (3 <= |n.children| ==> Build(n).value.value.value == n.children[2].text)
  {
  }

  /** `def_port`: the direction is the second child's raw text, any text at
      all, and "None" when that child is missing (the build then panics). */
  lemma DefPortFields(n: PNode)
    requires n.rule == def_port
    ensures Build(n).Ok? <==> 3 <= |n.children| && Build(n.children[2]).Ok?
    ensures Build(n).Ok? ==>
      Build(n).value == DefinePort(n.children[0].text, n.children[1].text, Build(n.children[2]).value)
  {
  }

  /** `type_def`: a vector bound exactly when a second child exists. */
  lemma TypeFields(n: PNode)
    requires n.rule == type_def
    ensures Build(n).Ok? <==> |n.children| < 2 || Build(n.children[1]).Ok?
    ensures Build(n).Ok? ==>
      && Build(n).value.Type?
      && Build(n).value.name == ChildText(n.children, 0)
      && (Build(n).value.vector.Some? <==> 2 <= |n.children|)
      && (2 <= |n.children| ==> Build(n).value.vector == Some(Build(n.children[1]).value))
  {
  }
}
