/** What a cell displays for the page's theme. */
module Theme {

  /** A cell's displayed content: a number, a glyph, or nothing. */
  datatype Content = Number(n: int) | Glyph(g: string) | Blank

  /** The glyphs of the "shapes" theme: red triangle, red circle, black square, orange diamond. */
  const ShapeGlyphs: seq<string> := ["\U{1F53A}", "\U{1F534}", "\U{2B1B}\U{FE0F}", "\U{1F536}"]

  /** The glyphs of the "animals" theme: dog, cat, mouse, hamster, rabbit, fox, bear, panda, koala, tiger. */
  const AnimalGlyphs: seq<string> := ["\U{1F436}", "\U{1F431}", "\U{1F42D}", "\U{1F439}", "\U{1F430}",
                                      "\U{1F98A}", "\U{1F43B}", "\U{1F43C}", "\U{1F428}", "\U{1F42F}"]

  /** The themes that give a cell some content. */
  predicate KnownTheme(theme: string) {
    theme == "numbers" || theme == "shapes" || theme == "animals"
  }

  /**
   * Content of cell `i`: its one-based number, a shape or an animal taken cyclically
   * from the theme's list, and nothing for any other theme.
   */
  function GetContent(theme: string, i: nat): (c: Content)
    ensures c.Blank? <==> !KnownTheme(theme)
    ensures theme == "numbers" ==> c.Number? && c.n >= 1
    ensures theme == "shapes" ==> c.Glyph? && c.g in ShapeGlyphs
    ensures theme == "animals" ==> c.Glyph? && c.g in AnimalGlyphs
  {
    if theme == "numbers" then Number(i + 1)
    else if theme == "shapes" then Glyph(ShapeGlyphs[i % |ShapeGlyphs|])
    else if theme == "animals" then Glyph(AnimalGlyphs[i % |AnimalGlyphs|])
    else Blank
  }

  /** The number of cells after which a theme's content repeats (none for "numbers"). */
  function Period(theme: string): (p: nat)
    ensures theme == "shapes" ==> p == |ShapeGlyphs|
    ensures theme == "animals" ==> p == |AnimalGlyphs|
  {
    if theme == "shapes" then |ShapeGlyphs| else if theme == "animals" then |AnimalGlyphs| else 0
  }

  /** Under "numbers" different cells show different contents; under a glyph theme contents cycle. */
  lemma ContentCycles(theme: string, i: nat, j: nat)
    ensures theme == "numbers" ==> (GetContent(theme, i) == GetContent(theme, j) <==> i == j)
    ensures Period(theme) > 0 ==> GetContent(theme, i + Period(theme)) == GetContent(theme, i)
  {
    if theme == "shapes" {
      assert (i + 4) % 4 == i % 4;
    } else if theme == "animals" {
      assert (i + 10) % 10 == i % 10;
    }
  }

  /** No glyph occurs twice in a theme's list. */
  lemma GlyphListsDistinct()
    ensures forall a, b :: 0 <= a < b < |ShapeGlyphs| ==> ShapeGlyphs[a] != ShapeGlyphs[b]
    ensures forall a, b :: 0 <= a < b < |AnimalGlyphs| ==> AnimalGlyphs[a] != AnimalGlyphs[b]
  {
  }

  /** Within one period of a glyph theme, different cells show different glyphs. */
  lemma GlyphsDistinctWithinPeriod(theme: string, i: nat, j: nat)
    requires theme == "shapes" || theme == "animals"
    requires i < j < i + Period(theme)
    ensures GetContent(theme, i) != GetContent(theme, j)
  {
    GlyphListsDistinct();
    if theme == "shapes" {
      assert i % 4 != j % 4;
    } else {
      assert i % 10 != j % 10;
    }
  }
}
