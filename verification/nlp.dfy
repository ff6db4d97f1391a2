/** The spaCy language model as the extractors see it. Loading it may fail
    (parsing.py then holds `nlp = None`), which callers receive as `None`
    in an `Option<Model>`. */
module Nlp {

  /** One entry of `doc.ents`: the entity text and its label (`label_`). */
  datatype Entity = Entity(text: string, kind: string)

  /** A loaded model. `ents(t)` is `nlp(t).ents` in document order and
      `tokens(t)` the texts of the tokens of `nlp(t)`. */
  datatype Model = Model(ents: string -> seq<Entity>, tokens: string -> seq<string>)
}
