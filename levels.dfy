/** The static level catalogue of the game (`levels` in script.js).

    Each level has an ordered palette of colours. The level names and
    explanation texts are display strings and are not part of the model; the
    colour codes are kept, but only as identities compared by equality. */
module Levels {

  /** A colour is the colour code a palette button carries. */
  type Color = string

  datatype Level = Level(colors: seq<Color>)

  /** The six levels, in play order. */
  const LEVELS: seq<Level> := [
    Level(["#3498db", "#5dade2", "#85c1e9"]),             // Monochromatic
    Level(["#FF6F61", "#FF8C42", "#FFD166"]),             // Analogous
    Level(["#FF5733", "#33C1FF"]),                        // Complementary
    Level(["#FF6347", "#6A5ACD", "#3CB371"]),             // Split-Complementary
    Level(["#E63946", "#2A9D8F", "#F4A261"]),             // Triadic
    Level(["#FF6347", "#4682B4", "#32CD32", "#FFD700"])   // Tetradic
  ]

  /** No colour occurs twice in a palette. */
  predicate Distinct<C(==)>(palette: seq<C>) {
    forall i, j :: 0 <= i < j < |palette| ==> palette[i] != palette[j]
  }

  /** The catalogue has six levels whose palettes hold 3, 3, 2, 3, 3 and 4
      colours, and no palette repeats a colour. */
  lemma CatalogueShape()
    ensures |LEVELS| == 6
    ensures |LEVELS[0].colors| == 3 && |LEVELS[1].colors| == 3 && |LEVELS[2].colors| == 2
    ensures |LEVELS[3].colors| == 3 && |LEVELS[4].colors| == 3 && |LEVELS[5].colors| == 4
    ensures forall l :: 0 <= l < |LEVELS| ==> Distinct(LEVELS[l].colors)
  {
  }
}
