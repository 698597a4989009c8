/** The marker palette of the image editor (components/editor/types.ts). */
module MarkerTypes {
  import opened Wrappers
  import opened Text

  /** MARKER_COLORS (lines 33-42). */
  const MarkerColors: seq<string> :=
    ["#FF6B6B", "#4ECDC4", "#FFE66D", "#95E1D3", "#F38181", "#AA96DA", "#FCBAD3", "#A8D8EA"]

  /** getMarkerColor (lines 44-46): the palette entry at `index % 8` with JavaScript's remainder;
      a negative remainder indexes past the array and gives `undefined` (None), while `-8 % 8`
      is -0, which indexes entry 0. */
  function GetMarkerColor(index: int): (color: Option<string>)
    ensures index >= 0 ==> color == Some(MarkerColors[index % |MarkerColors|])
    ensures color.Some? <==> index >= 0 || index % |MarkerColors| == 0
    ensures color.Some? ==> color.value in MarkerColors
  {
    var i := JsRem(index, |MarkerColors|);
    if 0 <= i then Some(MarkerColors[i]) else None
  }

  /** The eight entries are pairwise different. */
  lemma ColorsDistinct(i: nat, j: nat)
    requires i < |MarkerColors| && j < |MarkerColors| && i != j
    ensures MarkerColors[i] != MarkerColors[j]
  {
  }

  /** The first eight markers get the palette in order, so they all differ. */
  lemma FirstMarkersDistinct(i: nat, j: nat)
    requires i < 8 && j < 8 && i != j
    ensures GetMarkerColor(i) == Some(MarkerColors[i])
    ensures GetMarkerColor(i) != GetMarkerColor(j)
  {
    ColorsDistinct(i, j);
  }

  /** From index 0 on the colours repeat with period eight. */
  lemma ColorPeriodic(i: nat)
    ensures GetMarkerColor(i + |MarkerColors|) == GetMarkerColor(i)
  {
  }
}
