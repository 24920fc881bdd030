/** The corporate colour constants of `neuro_metrics.colors`, the named
    palettes, `get_palette` (lookup with a fallback, then prefix or cyclic
    extension) and `get_color` (cyclic index into the primary palette). */
module Colors {

  /** `None` stands for an omitted `n_colors`. */
  datatype Option<T> = None | Some(value: T)

  // Primary colours
  const SberGreen: string := "#21A038"
  const SberDarkGreen: string := "#168A2C"
  const SberLightGreen: string := "#3BB54A"

  // Secondary colours
  const SberOrange: string := "#FF6B00"
  const SberBlue: string := "#0E67D7"
  const SberPurple: string := "#7B4EA5"
  const SberRed: string := "#E31E24"
  const SberYellow: string := "#FFB800"

  // Neutral colours
  const SberDarkGray: string := "#333333"
  const SberGray: string := "#707070"
  const SberLightGray: string := "#B8B8B8"
  const SberLighterGray: string := "#E6E6E6"
  const SberWhite: string := "#FFFFFF"
  const SberBlack: string := "#000000"

  const PalettePrimary: seq<string> :=
    [SberGreen, SberBlue, SberOrange, SberPurple, SberYellow, SberRed]

  const PaletteSequentialGreen: seq<string> :=
    ["#E8F5E9", "#A5D6A7", "#66BB6A", "#43A047", "#2E7D32", "#1B5E20"]

  const PaletteDiverging: seq<string> :=
    ["#E31E24", "#FF6B00", "#FFB800", "#E6E6E6", "#3BB54A", "#21A038", "#168A2C"]

  /** The categorical palette is the primary palette itself. */
  const PaletteCategorical: seq<string> := PalettePrimary

  const GradientGreen: seq<string> := ["#E8F5E9", "#21A038", "#168A2C"]
  const GradientBlue: seq<string> := ["#E3F2FD", "#0E67D7", "#0D47A1"]
  const GradientWarm: seq<string> := ["#FFE0B2", "#FF6B00", "#E31E24"]

  /** The `palettes` dictionary built inside `get_palette`. */
  const Palettes: map<string, seq<string>> := map[
    "primary" := PalettePrimary,
    "sequential" := PaletteSequentialGreen,
    "diverging" := PaletteDiverging,
    "categorical" := PaletteCategorical,
    "gradient_green" := GradientGreen,
    "gradient_blue" := GradientBlue,
    "gradient_warm" := GradientWarm
  ]

  /** `palettes.get(name, PALETTE_PRIMARY)`: never empty, the registered
      palette for a known name and the primary palette for any other. */
  function Lookup(name: string): (p: seq<string>)
    ensures |p| > 0
    ensures name in Palettes ==> p == Palettes[name]
    ensures name !in Palettes ==> p == PalettePrimary
  {
    if name in Palettes then Palettes[name] else PalettePrimary
  }

  /** Python's `palette[:n]` for any integer `n`: a negative `n` drops the
      last `-n` items. */
  function SlicePrefix(s: seq<string>, n: int): (r: seq<string>)
    ensures n >= 0 ==> r == s[..if n <= |s| then n else |s|]
    ensures n < 0 ==> r == s[..if |s| + n >= 0 then |s| + n else 0]
  {
    if n >= 0 then (if n <= |s| then s[..n] else s)
    else if |s| + n >= 0 then s[..|s| + n] else []
  }

  /** `[palette[i % len(palette)] for i in range(n)]`. */
  function Cycle(palette: seq<string>, n: nat): (r: seq<string>)
    requires |palette| > 0
    ensures |r| == n
    ensures forall i :: 0 <= i < n ==> r[i] == palette[i % |palette|]
  {
    seq(n, i requires 0 <= i < n => palette[i % |palette|])
  }

  /** `get_palette(name, n_colors)`; `None` for `n_colors` is `nColors.None?`. */
  function GetPalette(name: string, nColors: Option<int>): (r: seq<string>)
    ensures nColors.None? ==> r == Lookup(name)
    ensures nColors.Some? && nColors.value <= |Lookup(name)| ==>
      r == SlicePrefix(Lookup(name), nColors.value)
    ensures nColors.Some? && nColors.value > |Lookup(name)| ==> |r| == nColors.value
  {
    var palette := Lookup(name);
    match nColors
    case None => palette
    case Some(n) =>
      if n <= |palette| then SlicePrefix(palette, n)
      else Cycle(palette, n)
  }

  /** For every non-negative count, the result has exactly that many colours
      and colour `i` is the palette's colour `i` modulo its length: the
      prefix case and the cycling case agree. */
  lemma GetPaletteCycles(name: string, n: nat)
    ensures var r := GetPalette(name, Some(n)); var p := Lookup(name);
      |r| == n && forall i :: 0 <= i < n ==> r[i] == p[i % |p|]
  {
    var p := Lookup(name);
    if n <= |p| {
      // In the prefix branch every index is already below the length.
      forall i | 0 <= i < n ensures i % |p| == i {
      }
    }
  }

  /** A count no larger than the palette gives the palette's prefix. */
  lemma GetPalettePrefix(name: string, n: nat)
    requires n <= |Lookup(name)|
    ensures GetPalette(name, Some(n)) == Lookup(name)[..n]
    ensures GetPalette(name, Some(|Lookup(name)|)) == Lookup(name)
  {
  }

  /** A negative count follows slice semantics: the palette without its last
      `-n` colours, empty once `-n` reaches the palette's length. */
  lemma GetPaletteNegative(name: string, n: int)
    requires n < 0
    ensures var p := Lookup(name);
      GetPalette(name, Some(n)) == if -n < |p| then p[..|p| + n] else []
  {
  }

  /** Unknown names fall back to the primary palette, and "categorical" is
      the primary palette. */
  lemma LookupFallback(name: string, n: Option<int>)
    ensures name !in {"primary", "sequential", "diverging", "categorical",
                      "gradient_green", "gradient_blue", "gradient_warm"}
      ==> GetPalette(name, n) == GetPalette("primary", n)
    ensures GetPalette("categorical", n) == GetPalette("primary", n)
    ensures |Lookup("primary")| == 6
  {
  }

  /** `get_color(index)`: the primary palette, indexed modulo its length
      (Python's `%` and Dafny's agree for a positive divisor). */
  function GetColor(index: int): (c: string)
    ensures c in PalettePrimary
    ensures 0 <= index < |PalettePrimary| ==> c == PalettePrimary[index]
  {
    PalettePrimary[index % |PalettePrimary|]
  }

  /** `get_color` repeats with period six, in both directions. */
  lemma GetColorPeriodic(index: int, k: int)
    ensures GetColor(index + 6 * k) == GetColor(index)
  {
  }

  /** `get_color(0)` is the brand green, and `get_color(i)` is colour `i` of
      any primary palette long enough to have one. */
  lemma GetColorAgreesWithPalette(i: int, n: nat)
    requires 0 <= i < n
    ensures GetColor(0) == SberGreen
    ensures GetColor(i) == GetPalette("primary", Some(n))[i]
  {
    GetPaletteCycles("primary", n);
  }
}
