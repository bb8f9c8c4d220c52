/**
 * RGB triples as the scripts pass them to the drawing library, and the
 * clamped darkening the batch generator applies to outline colours.
 */
module Colors {

  datatype Rgb = Rgb(r: int, g: int, b: int)

  predicate InRange(c: int) { 0 <= c <= 255 }

  /** Every component is a byte. */
  predicate ValidRgb(c: Rgb) {
    InRange(c.r) && InRange(c.g) && InRange(c.b)
  }

  /** `max(0, c - d)`. */
  function ShadeDown(c: int, d: nat): (s: int)
    ensures s >= 0 && s <= (if c < 0 then 0 else c)
    ensures c - d >= 0 ==> s == c - d
    ensures c - d < 0 ==> s == 0
  {
    if c - d > 0 then c - d else 0
  }

  /** `tuple(max(0, c - d) for c in color)`. */
  function Darker(color: Rgb, d: nat): (dark: Rgb)
    ensures ValidRgb(color) ==> ValidRgb(dark)
    ensures ValidRgb(color) ==> dark.r <= color.r && dark.g <= color.g && dark.b <= color.b
  {
    Rgb(ShadeDown(color.r, d), ShadeDown(color.g, d), ShadeDown(color.b, d))
  }

  /** Darkening by `d` then by `e` is darkening by `d + e`. */
  lemma DarkerCompose(color: Rgb, d: nat, e: nat)
    ensures Darker(Darker(color, d), e) == Darker(color, d + e)
  {
  }

  /** Darkening never lightens: a larger step gives a component no larger. */
  lemma DarkerMonotone(color: Rgb, d: nat, e: nat)
    requires d <= e
    ensures Darker(color, e).r <= Darker(color, d).r
    ensures Darker(color, e).g <= Darker(color, d).g
    ensures Darker(color, e).b <= Darker(color, d).b
  {
  }
}
