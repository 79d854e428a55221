/**
 * The first-generation package's palette module. Its `hex_to_rgb` is the
 * same code as `Colortable.HexToRgb`; its `get_continuous_cmap` always
 * spreads the colours evenly over `[0, 1]`.
 */
module LegacyColortable {
  import opened Errors
  import Linspace
  import Colortable

  /**
   * `get_continuous_cmap(hex_list)`: the newer function with no positions
   * given. The loop over the channels is the same code; with one position
   * per colour it cannot fail.
   */
  method GetContinuousCmap(hexList: seq<string>) returns (r: Result<Colortable.SegmentedColormap>)
    ensures r == Colortable.ContinuousCmap(hexList, None)
  {
    var rgbs :- Colortable.RgbList(hexList);
    var pos := Linspace.Linspace(0.0, 1.0, |rgbs|);
    var cdict := Colortable.FillChannels(pos, rgbs);
    return Ok(Colortable.SegmentedColormap("my_cmp", cdict.value, 256));
  }

  /**
   * With one position per colour the IndexError path is unreachable: the
   * legacy function fails exactly when some colour is not a hex string of
   * three or more digits.
   */
  lemma FailsOnlyOnBadColour(hexList: seq<string>)
    ensures Colortable.ContinuousCmap(hexList, None).Ok?
        <==> forall i :: 0 <= i < |hexList| ==> Colortable.HexToRgb(hexList[i]).Ok?
    ensures Colortable.ContinuousCmap(hexList, None).Err? ==>
        Colortable.ContinuousCmap(hexList, None).error.ValueError?
  {
    var rl := Colortable.RgbList(hexList);
    if rl.Err? {
      MapAllErrorFrom(Colortable.HexToRgb, hexList);
    }
  }
}
