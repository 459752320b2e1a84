/** Both builders applied to one concrete tree: the parse of

      entity Counter is
        generic (WIDTH : integer := 8);
        port (CLK : in std_logic; Q : out std_logic_vector(WIDTH-1 downto 0));
      end Counter;

    as a tree of the rule tags both builders read (keywords and punctuation
    are not in it; the grammar itself is not part of this model). */
module CounterScenario {
  import opened RustCore
  import opened ParseTree
  import opened U32Text
  import LibAst
  import LegacyAst

  function Leaf(r: Rule, text: string): PNode {
    PNode(r, text, [])
  }

  function WidthGeneric(): PNode {
    PNode(def_generic, "WIDTH : integer := 8",
      [Leaf(identifier, "WIDTH"),
       PNode(type_def, "integer", [Leaf(identifier, "integer")]),
       Leaf(integer_value, "8")])
  }

  function ClkPort(): PNode {
    PNode(def_port, "CLK : in std_logic",
      [Leaf(identifier, "CLK"), Leaf(other, "in"),
       PNode(type_def, "std_logic", [Leaf(identifier, "std_logic")])])
  }

  function QBounds(): PNode {
    PNode(vector, "WIDTH-1 downto 0",
      [PNode(term, "WIDTH-1", [Leaf(identifier, "WIDTH"), Leaf(other, "-"), Leaf(integer_value, "1")]),
       Leaf(integer_value, "0")])
  }

  function QPort(): PNode {
    PNode(def_port, "Q : out std_logic_vector(WIDTH-1 downto 0)",
      [Leaf(identifier, "Q"), Leaf(other, "out"),
       PNode(type_def, "std_logic_vector(WIDTH-1 downto 0)", [Leaf(identifier, "std_logic_vector"), QBounds()])])
  }

  function Block(): PNode {
    PNode(entity_block, "generic (...); port (...);",
      [PNode(generics, "generic (WIDTH : integer := 8);", [WidthGeneric()]),
       PNode(ports, "port (...);", [ClkPort(), QPort()])])
  }

  function Counter(): PNode {
    PNode(entity, "entity Counter is ... end Counter;", [Leaf(identifier, "Counter"), Block()])
  }

  lemma ParseSmallNumbers()
    ensures ParseU32("8") == Parsed(8) && ParseU32("1") == Parsed(1) && ParseU32("0") == Parsed(0)
  {
  }

  const G := LibAst.DefineGeneric("WIDTH", LibAst.Type("integer", None), Some(LibAst.Int(8)))
  const Clk := LibAst.DefinePort("CLK", "in", LibAst.Type("std_logic", None))
  const Bounds := LibAst.Vector(LibAst.Operation(LibAst.Str("WIDTH"), "-", LibAst.Int(1)), LibAst.Int(0))
  const Q := LibAst.DefinePort("Q", "out", LibAst.Type("std_logic_vector", Some(Bounds)))

  lemma LibDeclarations()
    ensures LibAst.Build(WidthGeneric()) == Ok(G)
    ensures LibAst.Build(ClkPort()) == Ok(Clk)
  {
    ParseSmallNumbers();
  }

  lemma LibQBounds()
    ensures LibAst.Build(QBounds()) == Ok(Bounds)
  {
    ParseSmallNumbers();
    var t := QBounds().children[0];
    assert LibAst.Build(t.children[0]) == Ok(LibAst.Str("WIDTH"));
    assert LibAst.Build(t.children[2]) == Ok(LibAst.Int(1));
    assert LibAst.Build(t) == Ok(LibAst.Operation(LibAst.Str("WIDTH"), "-", LibAst.Int(1)));
  }

  lemma LibQPort()
    ensures LibAst.Build(QPort()) == Ok(Q)
  {
    LibQBounds();
    var ty := QPort().children[2];
    assert LibAst.Build(ty) == Ok(LibAst.Type("std_logic_vector", Some(Bounds)));
  }

  lemma LibGenerics()
    ensures LibAst.Build(Block().children[0]) == Ok(LibAst.Generic([G]))
  {
    LibDeclarations();
    var gs := Block().children[0];
    assert gs.children == [WidthGeneric()];
    LibAst.BuildAllMeaning(gs, 1);
    assert LibAst.BuildAll(gs, 1).value == [G];
  }

  lemma LibPorts()
    ensures LibAst.Build(Block().children[1]) == Ok(LibAst.Port([Clk, Q]))
  {
    LibDeclarations();
    LibQPort();
    var ps := Block().children[1];
    assert ps.children == [ClkPort(), QPort()];
    LibAst.BuildAllMeaning(ps, 2);
    assert LibAst.BuildAll(ps, 2).value == [Clk, Q];
  }

  /** The library builder: one generic whose default is the integer 8, and
      the two ports, the second with the bound `Operation(WIDTH, -, 1)` to 0. */
  lemma LibCounter()
    ensures LibAst.Build(Counter()) == Ok(LibAst.Entity("Counter", Some([G]), [Clk, Q], []))
  {
    LibGenerics();
    LibPorts();
    var blk := Block();
    var built := [LibAst.Generic([G]), LibAst.Port([Clk, Q])];
    LibAst.BuildAllMeaning(blk, 2);
    assert LibAst.BuildAll(blk, 2).value == built;
    assert LibAst.Route(built[..1]) == LibAst.EntityParts(Some([G]), [], []);
    assert LibAst.Route(built) == LibAst.EntityParts(Some([G]), [Clk, Q], []);
  }

  /** The older builder: raw texts for the default and the bounds, and the
      block as `UniqueTerms` of `Generics`/`Ports` wrapping only the first
      declaration of each list (the `Q` port is dropped). */
  lemma LegacyCounter()
    ensures LegacyAst.Build(Counter()) == Ok(LegacyAst.Entity("Counter",
      LegacyAst.UniqueTerms([
        LegacyAst.Generics(LegacyAst.DefineGeneric("WIDTH", LegacyAst.Type("integer", None), Some("8"))),
        LegacyAst.Ports(LegacyAst.DefinePort("CLK", "in", LegacyAst.Type("std_logic", None)))])))
  {
    var g := LegacyAst.Generics(LegacyAst.DefineGeneric("WIDTH", LegacyAst.Type("integer", None), Some("8")));
    var p := LegacyAst.Ports(LegacyAst.DefinePort("CLK", "in", LegacyAst.Type("std_logic", None)));
    var blk := Block();
    assert LegacyAst.Build(blk.children[0]) == Ok(g);
    assert LegacyAst.Build(blk.children[1]) == Ok(p);
    LegacyAst.BuildAllMeaning(blk, 2);
    assert LegacyAst.BuildAll(blk, 2).value == [g, p];
  }
}
