/**
 * The frozen `Theme` record and the colour list its `colormap` property
 * builds from hex strings. As a datatype a theme cannot change after
 * construction, which is what `frozen=True` promises.
 */
module Themes {
  import opened Errors
  import opened Hex

  /** `colors` is either the name of a registered colormap or a list of hex colours. */
  datatype Colors = ColormapName(name: string) | HexList(hexes: seq<string>)

  datatype Theme = Theme(name: string, background: string, foreground: string, colors: Colors)

  /** An RGB triple with channels in `[0, 1]` when parsed from hex digits. */
  datatype Rgb = Rgb(r: real, g: real, b: real)

  /** One channel: the two characters at `i` parsed base 16, over 255. */
  function Channel(t: string, i: nat): (r: Result<real>)
    ensures r.Ok? <==> ParseInt16(Slice(t, i, i + 2)).Ok?
    ensures r.Ok? ==> 0.0 <= r.value <= 1.0
    ensures r.Ok? ==> r.value == ParseInt16(Slice(t, i, i + 2)).value as real / 255.0
  {
    var v :- ParseInt16(Slice(t, i, i + 2));
    TwoDigitsAtMost255(Slice(t, i, i + 2));
    Ok(v as real / 255.0)
  }

  /** The channels of a colour whose leading `#`s are already stripped. */
  function FromDigits(t: string): (r: Result<Rgb>)
    ensures r.Ok? ==> 0.0 <= r.value.r <= 1.0 && 0.0 <= r.value.g <= 1.0 && 0.0 <= r.value.b <= 1.0
    ensures r.Ok? <==> Channel(t, 0).Ok? && Channel(t, 2).Ok? && Channel(t, 4).Ok?
  {
    var r :- Channel(t, 0);
    var g :- Channel(t, 2);
    var b :- Channel(t, 4);
    Ok(Rgb(r, g, b))
  }

  /**
   * One colour of the list: leading `#` characters stripped, then the slices
   * at 0, 2 and 4 parsed as channels; characters past the sixth are unread.
   */
  function ParseColor(c: string): (r: Result<Rgb>)
    ensures r.Ok? ==> 0.0 <= r.value.r <= 1.0 && 0.0 <= r.value.g <= 1.0 && 0.0 <= r.value.b <= 1.0
  {
    FromDigits(LStrip(c, '#'))
  }

  /** A colour of six or more hex digits after the `#`s parses; four or fewer never does. */
  lemma ParseColorDomain(c: string)
    ensures var t := LStrip(c, '#');
      && (|t| >= 6 && AllHex(t[..6]) ==> ParseColor(c).Ok?)
      && (|t| <= 4 ==> ParseColor(c).Err? && ParseColor(c).error.ValueError?)
  {
    var t := LStrip(c, '#');
    if |t| >= 6 && AllHex(t[..6]) {
      HexPair(t, 0);
      HexPair(t, 2);
      HexPair(t, 4);
    }
    if |t| <= 4 {
      assert !Channel(t, 4).Ok? by {
        assert Slice(t, 4, 6) == "";
      }
    }
  }

  lemma HexPair(t: string, i: nat)
    requires i + 2 <= 6 <= |t| && AllHex(t[..6])
    ensures Channel(t, i).Ok?
  {
    var s := Slice(t, i, i + 2);
    assert |s| == 2 && s[0] == t[i] && s[1] == t[i + 1];
    assert IsHexDigit(t[..6][i]) && IsHexDigit(t[..6][i + 1]);
    assert AllHex(s);
  }

  /** Characters after the sixth (past the `#`s) do not change the colour. */
  lemma TailIgnored(c: string, tail: string)
    requires |LStrip(c, '#')| >= 6
    ensures ParseColor(c + tail) == ParseColor(c)
  {
    var t := LStrip(c, '#');
    assert LStrip(c + tail, '#') == t + tail by {
      LStripAppend(c, tail);
    }
    FromDigitsOfPrefix(t, tail);
  }

  lemma FromDigitsOfPrefix(t: string, tail: string)
    requires |t| >= 6
    ensures FromDigits(t + tail) == FromDigits(t)
  {
    ChannelOfPrefix(t, tail, 0);
    ChannelOfPrefix(t, tail, 2);
    ChannelOfPrefix(t, tail, 4);
  }

  lemma ChannelOfPrefix(t: string, tail: string, i: nat)
    requires i + 2 <= |t|
    ensures Channel(t + tail, i) == Channel(t, i)
  {
    assert Slice(t + tail, i, i + 2) == Slice(t, i, i + 2);
  }

  lemma {:induction false} LStripAppend(c: string, tail: string)
    requires |LStrip(c, '#')| >= 1
    ensures LStrip(c + tail, '#') == LStrip(c, '#') + tail
  {
    if c[0] == '#' {
      assert (c + tail)[1..] == c[1..] + tail;
      LStripAppend(c[1..], tail);
    }
  }

  /** `"#FF0000"` is pure red. */
  lemma PureRed()
    ensures ParseColor("#FF0000") == Ok(Rgb(1.0, 0.0, 0.0))
  {
    assert LStrip("#FF0000", '#') == "FF0000" by {
      assert "#FF0000"[1..] == "FF0000";
    }
    assert Channel("FF0000", 0) == Ok(1.0) by {
      assert Slice("FF0000", 0, 2) == "FF";
      HexFF();
    }
    assert Channel("FF0000", 2) == Ok(0.0) by {
      assert Slice("FF0000", 2, 4) == "00";
      Hex00();
    }
    assert Channel("FF0000", 4) == Ok(0.0) by {
      assert Slice("FF0000", 4, 6) == "00";
      Hex00();
    }
  }

  lemma HexFF()
    ensures ParseInt16("FF") == Ok(255)
  {
    assert "FF"[..1] == "F";
    assert "F"[..0] == "";
  }

  lemma Hex00()
    ensures ParseInt16("00") == Ok(0)
  {
    assert "00"[..1] == "0";
    assert "0"[..0] == "";
  }

  /** The list comprehension: one triple per colour, in order, or the first failure. */
  function ParseColors(cs: seq<string>): (r: Result<seq<Rgb>>)
    ensures r.Ok? ==> |r.value| == |cs|
    ensures r.Ok? ==> forall i :: 0 <= i < |cs| ==> ParseColor(cs[i]) == Ok(r.value[i])
    ensures r.Ok? <==> forall i :: 0 <= i < |cs| ==> ParseColor(cs[i]).Ok?
  {
    MapAll(ParseColor, cs)
  }

  /** What the colormap is built from: a registered map by name, or the theme's own colours. */
  datatype ColormapSource = Registered(name: string) | FromList(name: string, rgbs: seq<Rgb>)

  /**
   * `Theme.colormap`, up to the matplotlib object it builds. `known` is the
   * set of names matplotlib's colormap registry holds; looking up any other
   * name raises its KeyError. `LinearSegmentedColormap.from_list` reads the
   * first colour of its list, so an empty list raises IndexError once the
   * (empty) comprehension has run.
   */
  function Colormap(t: Theme, known: set<string>): (r: Result<ColormapSource>)
    ensures t.colors.ColormapName? ==> (r.Ok? <==> t.colors.name in known)
    ensures t.colors.ColormapName? && r.Ok? ==> r.value == Registered(t.colors.name)
    ensures t.colors.ColormapName? && r.Err? ==>
      r.error == KeyError("'" + t.colors.name + "' is not a known colormap name")
    ensures t.colors.HexList? ==>
      (r.Ok? <==> |t.colors.hexes| > 0 && forall i :: 0 <= i < |t.colors.hexes| ==> ParseColor(t.colors.hexes[i]).Ok?)
    ensures t.colors.HexList? && t.colors.hexes == [] ==> r == Err(IndexError("list index out of range"))
    ensures t.colors.HexList? && r.Err? && t.colors.hexes != [] ==> r == Err(ParseColors(t.colors.hexes).error)
    ensures t.colors.HexList? && r.Ok? ==>
      r.value.FromList? && r.value.name == t.name && |r.value.rgbs| == |t.colors.hexes|
      && forall i :: 0 <= i < |t.colors.hexes| ==> ParseColor(t.colors.hexes[i]) == Ok(r.value.rgbs[i])
  {
    match t.colors
    case ColormapName(n) =>
      if n in known then Ok(Registered(n)) else Err(KeyError("'" + n + "' is not a known colormap name"))
    case HexList(hs) =>
      var rgbs :- ParseColors(hs);
      if |rgbs| == 0 then Err(IndexError("list index out of range")) else Ok(FromList(t.name, rgbs))
  }
}
