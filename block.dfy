/** The tiles a board cell can hold (src/block.rs). */
module Blocks {

  /** One terrain or content tile. `Sign` carries its text, `Object` its character. */
  datatype Block =
    | Grass
    | Sand
    | Rock
    | Cinderblock
    | Flowerbush
    | Barrier
    | Water
    | Sign(text: string)
    | Object(ch: char)

  /** The derived `PartialEq`: same variant, and equal payload for `Sign` and `Object`. */
  function SameBlock(a: Block, b: Block): (r: bool)
    ensures r <==> a == b
  {
    match (a, b)
    case (Grass, Grass) => true
    case (Sand, Sand) => true
    case (Rock, Rock) => true
    case (Cinderblock, Cinderblock) => true
    case (Flowerbush, Flowerbush) => true
    case (Barrier, Barrier) => true
    case (Water, Water) => true
    case (Sign(s), Sign(t)) => s == t
    case (Object(c), Object(d)) => c == d
    case _ => false
  }

  /** The `Display` text of a block shown to the player. */
  function Display(b: Block): (s: string)
    ensures |s| > 0
    ensures s == "Other block" <==> b.Barrier? || b.Sign? || b.Object?
  {
    match b
    case Grass => "Grass"
    case Sand => "Sand"
    case Rock => "Rock"
    case Cinderblock => "Cinderblock"
    case Flowerbush => "Flowers"
    case Water => "Water"
    case _ => "Other block"
  }

  /** The name each variant is declared with: the reference `Display` is compared against. */
  function VariantName(b: Block): string
  {
    match b
    case Grass => "Grass"
    case Sand => "Sand"
    case Rock => "Rock"
    case Cinderblock => "Cinderblock"
    case Flowerbush => "Flowerbush"
    case Barrier => "Barrier"
    case Water => "Water"
    case Sign(_) => "Sign"
    case Object(_) => "Object"
  }

  /** Exactly the five plain terrain variants other than Flowerbush display as their own name. */
  lemma DisplayIsVariantName(b: Block)
    ensures Display(b) == VariantName(b) <==> b in {Grass, Sand, Rock, Cinderblock, Water}
    ensures Display(Flowerbush) == "Flowers"
  {
  }

  /** Display forgets payloads and conflates three variants, so it is not injective. */
  lemma DisplayNotInjective(text: string, c: char)
    ensures Display(Sign(text)) == Display(Object(c)) == Display(Barrier) == "Other block"
    ensures Sign(text) != Object(c) && Object(c) != Barrier && Sign(text) != Barrier
  {
  }
}
