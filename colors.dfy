/** Colour values, the dynamically typed colour specification a ColorLabel
    accepts, its resolution against the current theme (getColor) and the
    type switch that validates and normalises a specification. */
module Colors {

  datatype Option<+T> = None | Some(value: T)

  newtype uint8 = x: int | 0 <= x < 0x100
  newtype uint16 = x: int | 0 <= x < 0x1_0000

  /** A concrete colour (a value of Go's `color.Color` interface). The three
      kinds the widget passes through are explicit; `OtherColor` stands for
      any other implementation of the interface (`color.RGBA`, `color.Gray`,
      a theme's private colour type, ...), identified only by an opaque id. */
  datatype Color =
    | NRGBA(r: uint8, g: uint8, b: uint8, a: uint8)
    | Alpha16(alpha: uint16)
    | Gray16(y: uint16)
    | OtherColor(id: nat)

  /** `color.Transparent` is the `Alpha16` value with alpha 0. */
  const Transparent: Color := Alpha16(0)

  /** The two Go types a colour name can arrive as: a plain `string` or the
      defined type `fyne.ThemeColorName`. Both are looked up in the theme,
      but only the plain string compares equal to the untyped constant "". */
  datatype NameKind = PlainString | ThemeName

  /** A value of static type `any` handed to the widget as a colour. */
  datatype ColorSpec =
    | Named(kind: NameKind, name: string)
    | Value(color: Color)
    | NonColor   // nil, an int, a struct, ... : anything that is neither a name nor a color.Color

  /** `theme.ColorNameForeground`, a `fyne.ThemeColorName`. */
  const ForegroundName: ColorSpec := Named(ThemeName, "foreground")

  /** The current theme, as far as the widget consults it: colour lookup by
      name and the base text size. */
  datatype Theme = Theme(color: string -> Color, textSize: real)

  /** The colour kinds that getColor returns unchanged. */
  predicate PassesThrough(c: Color) {
    c.NRGBA? || c.Alpha16? || c.Gray16?
  }

  /** The dynamic types the constructor and the colour setters accept:
      string, fyne.ThemeColorName, color.NRGBA, color.Alpha16, color.Gray16. */
  predicate Supported(c: ColorSpec) {
    c.Named? || (c.Value? && PassesThrough(c.color))
  }

  /** The only spec the `c == ""` test rewrites: an empty plain string. */
  predicate EmptyPlainName(c: ColorSpec) {
    c == Named(PlainString, "")
  }

  /** A spec as it can be stored after normalisation. */
  predicate Canonical(c: ColorSpec) {
    Supported(c) && !EmptyPlainName(c)
  }

  /** getColor: total resolution of a spec to a concrete colour. */
  function Resolve(th: Theme, c: ColorSpec): Color {
    match c
    case Named(_, name) => th.color(name)
    case Value(v) => if PassesThrough(v) then v else Transparent
    case NonColor => Transparent
  }

  /** The type switch shared by the constructor and both setters: `None` for
      an unsupported dynamic type, otherwise the spec with an empty plain
      string replaced by `empty`. */
  function Normalize(c: ColorSpec, empty: ColorSpec): (r: Option<ColorSpec>)
    ensures r.Some? <==> Supported(c)
    ensures r.Some? && EmptyPlainName(c) ==> r.value == empty
    ensures r.Some? && !EmptyPlainName(c) ==> r.value == c
  {
    match c
    case Named(PlainString, name) => Some(if name == "" then empty else c)
    case Named(ThemeName, _) => Some(c)
    case Value(v) => if PassesThrough(v) then Some(c) else None
    case NonColor => None
  }

  /** Normalisation of a text colour: "" becomes theme.ColorNameForeground. */
  function NormalizeText(c: ColorSpec): (r: Option<ColorSpec>)
    ensures r.Some? <==> Supported(c)
    ensures r.Some? ==> Canonical(r.value)
    ensures r.Some? ==> r.value == (if EmptyPlainName(c) then ForegroundName else c)
  {
    Normalize(c, ForegroundName)
  }

  /** Normalisation of a background colour: "" becomes color.Transparent. */
  function NormalizeBackground(c: ColorSpec): (r: Option<ColorSpec>)
    ensures r.Some? <==> Supported(c)
    ensures r.Some? ==> Canonical(r.value)
    ensures r.Some? ==> r.value == (if EmptyPlainName(c) then Value(Transparent) else c)
  {
    Normalize(c, Value(Transparent))
  }

  /** What getColor returns, case by case. */
  lemma ResolveCases(th: Theme, c: ColorSpec)
    ensures c.Named? ==> Resolve(th, c) == th.color(c.name)
    ensures c.Value? && PassesThrough(c.color) ==> Resolve(th, c) == c.color
    ensures !Supported(c) ==> Resolve(th, c) == Transparent
  {
  }

  /** Only names consult the theme: every other spec resolves to the same
      colour under every theme. */
  lemma ResolveThemeIndependent(th1: Theme, th2: Theme, c: ColorSpec)
    requires !c.Named?
    ensures Resolve(th1, c) == Resolve(th2, c)
  {
  }

  /** A plain string and a ThemeColorName with the same text resolve alike;
      the two kinds differ only under normalisation. */
  lemma ResolveKindIrrelevant(th: Theme, name: string)
    ensures Resolve(th, Named(PlainString, name)) == Resolve(th, Named(ThemeName, name))
  {
  }

  /** An empty ThemeColorName is not "": it is kept as it is and looked up
      in the theme under the empty name. */
  lemma EmptyThemeNameKept(th: Theme)
    ensures NormalizeText(Named(ThemeName, "")) == Some(Named(ThemeName, ""))
    ensures NormalizeBackground(Named(ThemeName, "")) == Some(Named(ThemeName, ""))
    ensures Resolve(th, NormalizeBackground(Named(ThemeName, "")).value) == th.color("")
  {
  }

  /** An empty plain string means the theme's foreground for text and
      transparent for the background, whatever the theme. */
  lemma EmptyPlainNameDefaults(th: Theme)
    ensures Resolve(th, NormalizeText(Named(PlainString, "")).value) == th.color("foreground")
    ensures Resolve(th, NormalizeBackground(Named(PlainString, "")).value) == Transparent
  {
  }

  /** Normalisation never changes the colour a spec resolves to, except for
      the empty plain string it rewrites. */
  lemma NormalizePreservesResolution(th: Theme, c: ColorSpec)
    requires Supported(c) && !EmptyPlainName(c)
    ensures Resolve(th, NormalizeText(c).value) == Resolve(th, c)
    ensures Resolve(th, NormalizeBackground(c).value) == Resolve(th, c)
  {
  }

  /** Normalising a normalised spec changes nothing. */
  lemma NormalizeIdempotent(c: ColorSpec)
    requires Supported(c)
    ensures NormalizeText(NormalizeText(c).value) == NormalizeText(c)
    ensures NormalizeBackground(NormalizeBackground(c).value) == NormalizeBackground(c)
  {
  }
}
