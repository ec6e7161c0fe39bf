/** The named colour palettes and the rule that colours a series from one of them. */
module Palette {
  import opened Wrappers

  /** The palette a new project starts with. */
  const DefaultScheme: string := "Modern Blue"

  /** The names offered by the colour-scheme selector, in the table's order. */
  const SchemeNames: seq<string> := ["Modern Blue", "Sunset", "Forest", "Purple Haze", "Ocean",
                                      "Neon", "Pastel", "Earth", "Ruby", "Ice"]

  /** `COLOR_SCHEMES[name]`: the palette of a known scheme, or `None` where Python raises `KeyError`. */
  function Scheme(name: string): (palette: Option<seq<string>>)
    ensures palette.Some? <==> name in SchemeNames
    ensures palette.Some? ==> |palette.value| == 5
  {
    if name == "Modern Blue" then Some(["#0066FF", "#00B4D8", "#90E0EF", "#CAF0F8", "#ADE8F4"])
    else if name == "Sunset" then Some(["#FF6B35", "#F7931E", "#FDC830", "#F37335", "#C44536"])
    else if name == "Forest" then Some(["#2D6A4F", "#40916C", "#52B788", "#74C69D", "#95D5B2"])
    else if name == "Purple Haze" then Some(["#7209B7", "#9D4EDD", "#C77DFF", "#E0AAFF", "#F0D9FF"])
    else if name == "Ocean" then Some(["#03045E", "#023E8A", "#0077B6", "#0096C7", "#00B4D8"])
    else if name == "Neon" then Some(["#FF006E", "#FB5607", "#FFBE0B", "#3A86FF", "#8338EC"])
    else if name == "Pastel" then Some(["#FFADAD", "#FFD6A5", "#FDFFB6", "#CAFFBF", "#9BF6FF"])
    else if name == "Earth" then Some(["#D4A373", "#BC6C25", "#606C38", "#283618", "#FEFAE0"])
    else if name == "Ruby" then Some(["#590D22", "#800F2F", "#A4133C", "#C9184A", "#FF4D6D"])
    else if name == "Ice" then Some(["#012A4A", "#013A63", "#01497C", "#014F86", "#2A6F97"])
    else None
  }

  /**
    * `[palette[i % len(palette)] for i in range(n)]`: the colours of an `n`-point series
    * recoloured from `palette`, built the way `add_data` grows it, one point at a time.
    */
  function CyclicColors(palette: seq<string>, n: nat): (colors: seq<string>)
    requires |palette| > 0
    ensures |colors| == n
    ensures forall i | 0 <= i < n :: colors[i] == palette[i % |palette|]
  {
    if n == 0 then [] else CyclicColors(palette, n - 1) + [palette[(n - 1) % |palette|]]
  }
}
