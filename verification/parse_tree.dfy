/** The concrete parse tree handed to both AST builders by the grammar engine. */
module ParseTree {

  /** The grammar's rule tags, spelled exactly as the grammar names them.
      `other` stands for every tag neither builder mentions (punctuation,
      keywords, architecture rules, ...). */
  datatype Rule =
    | vhdl
    | entity
    | entity_block
    | generics
    | ports
    | def_signal
    | type_def_generic
    | type_def
    | def_generic
    | def_port
    | vector
    | max_term
    | min_term
    | minmin_term
    | term
    | identifier
    | integer_value
    | other

  /** One node of the concrete parse tree: its rule tag, the exact source text
      it matched, and its children in source order. */
  datatype PNode = PNode(rule: Rule, text: string, children: seq<PNode>)

  /** `next_item_as_string` reading child `i` through the `Pairs` cursor: the
      child's matched text, or the literal "None" once the children run out. */
  function ChildText(cs: seq<PNode>, i: nat): string
  {
    if i < |cs| then cs[i].text else "None"
  }
}
