/**
 * Palettes to colormaps: `hex_to_rgb` cuts a hex string into three (or more)
 * equal runs of digits, and `get_continuous_cmap` spreads the colours of a
 * list over `[0, 1]` as the segment data of a linear segmented colormap.
 */
module Colortable {
  import opened Errors
  import opened Hex
  import opened Seqs
  import Linspace

  /**
   * The slices `v[i:i+c]` for `i` in `range(0, len(v), c)`: runs of `c`
   * characters, the last one shorter when `c` does not divide `len(v)`.
   */
  function Chunks(v: string, c: nat): (r: seq<string>)
    requires c > 0
    ensures (|v| == 0) == (r == [])
    ensures forall k :: 0 <= k < |r| ==> 0 < |r[k]| <= c
    decreases |v|
  {
    if v == [] then []
    else if |v| <= c then [v]
    else [v[..c]] + Chunks(v[c..], c)
  }

  /** The runs of a string of hex digits are hex digits. */
  lemma {:induction false} ChunksOfHex(v: string, c: nat)
    requires c > 0 && AllHex(v)
    ensures forall k :: 0 <= k < |Chunks(v, c)| ==> AllHex(Chunks(v, c)[k])
    decreases |v|
  {
    if |v| > c {
      var rest := Chunks(v[c..], c);
      assert AllHex(v[c..]) by {
        forall i | 0 <= i < |v| - c ensures IsHexDigit(v[c..][i]) {
          assert v[c..][i] == v[c + i];
        }
      }
      ChunksOfHex(v[c..], c);
      forall k | 0 <= k < |Chunks(v, c)| ensures AllHex(Chunks(v, c)[k]) {
        if k > 0 {
          assert Chunks(v, c)[k] == rest[k - 1];
        }
      }
    }
  }

  /** A string whose runs are all hex digits is all hex digits. */
  lemma {:induction false} HexOfChunks(v: string, c: nat)
    requires c > 0 && forall k :: 0 <= k < |Chunks(v, c)| ==> AllHex(Chunks(v, c)[k])
    ensures AllHex(v)
    decreases |v|
  {
    if v == [] {
    } else if |v| <= c {
      assert Chunks(v, c)[0] == v;
    } else {
      var rest := Chunks(v[c..], c);
      forall k | 0 <= k < |rest| ensures AllHex(rest[k]) {
        assert Chunks(v, c)[k + 1] == rest[k];
      }
      HexOfChunks(v[c..], c);
      assert Chunks(v, c)[0] == v[..c];
      forall i | 0 <= i < |v| ensures IsHexDigit(v[i]) {
        if i < c {
          assert v[..c][i] == v[i];
        } else {
          assert v[c..][i - c] == v[i];
        }
      }
    }
  }

  /** `ceil(len(v) / c)` runs. */
  lemma {:induction false} ChunksCount(v: string, c: nat)
    requires c > 0
    ensures |Chunks(v, c)| == (|v| + c - 1) / c
    decreases |v|
  {
    if v == [] {
      DivUpper(c - 1, c, 0);
    } else if |v| <= c {
      DivLower(|v| + c - 1, c, 1);
      DivUpper(|v| + c - 1, c, 1);
    } else {
      ChunksCount(v[c..], c);
      CeilStep(|v| - 1, c);
    }
  }

  /** Adding `c` to the numerator adds one to the quotient. */
  lemma CeilStep(y: nat, c: nat)
    requires c > 0
    ensures (y + c) / c == y / c + 1
  {
    var q := y / c;
    assert y == q * c + y % c;
    DivLower(y + c, c, q + 1);
    DivUpper(y + c, c, q + 1);
  }

  /** `int(s, 16)` over each chunk, in order; the first failure wins. */
  function ParseAll(cs: seq<string>): (r: Result<seq<nat>>)
    ensures r.Ok? <==> forall i :: 0 <= i < |cs| ==> ParseInt16(cs[i]).Ok?
    ensures r.Ok? ==> |r.value| == |cs| && forall i :: 0 <= i < |cs| ==> ParseInt16(cs[i]) == Ok(r.value[i])
    ensures r.Err? ==> r.error.ValueError?
  {
    if cs == [] then Ok([])
    else
      var front :- ParseAll(cs[..|cs| - 1]);
      var last :- ParseInt16(cs[|cs| - 1]);
      Ok(front + [last])
  }

  /** The number of runs `hex_to_rgb` cuts a stripped string of length `lv` into. */
  function RunCount(lv: nat): nat
    requires lv >= 3
  {
    (lv + lv / 3 - 1) / (lv / 3)
  }

  /** The runs of an already stripped string, each parsed and divided by 256. */
  function FromStripped(v: string): (r: Result<seq<real>>)
    ensures |v| < 3 ==> r == Err(ValueError("range() arg 3 must not be zero"))
    ensures r.Ok? ==> |v| >= 3 && |r.value| >= 3
    ensures r.Ok? ==> forall i :: 0 <= i < |r.value| ==> 0.0 <= r.value[i]
    ensures r.Err? ==> r.error.ValueError?
  {
    var c := |v| / 3;
    if c == 0 then Err(ValueError("range() arg 3 must not be zero"))
    else
      var vals :- ParseAll(Chunks(v, c));
      ChunksCount(v, c);
      AtLeastThreeRuns(|v|);
      Ok(seq(|vals|, i requires 0 <= i < |vals| => vals[i] as real / 256.0))
  }

  /**
   * `hex_to_rgb(value)`: `#` stripped from both ends, runs of `len // 3`
   * digits parsed base 16 and divided by 256. Fewer than three characters
   * make the run length zero, which `range` refuses.
   */
  function HexToRgb(value: string): (r: Result<seq<real>>)
    ensures |Strip(value, '#')| < 3 ==> r == Err(ValueError("range() arg 3 must not be zero"))
    ensures r.Ok? ==> |Strip(value, '#')| >= 3 && |r.value| >= 3
    ensures r.Ok? ==> forall i :: 0 <= i < |r.value| ==> 0.0 <= r.value[i]
    ensures r.Err? ==> r.error.ValueError?
  {
    FromStripped(Strip(value, '#'))
  }

  /** One value per run: `ceil(lv / (lv // 3))` of them. */
  lemma HexToRgbLength(value: string)
    requires HexToRgb(value).Ok?
    ensures |HexToRgb(value).value| == RunCount(|Strip(value, '#')|)
  {
    var v := Strip(value, '#');
    ChunksCount(v, |v| / 3);
  }

  lemma MulCancelLt(a: int, b: int, c: int)
    requires c > 0 && a * c < b * c
    ensures a < b
  {
  }

  lemma DivLower(x: nat, c: nat, q: nat)
    requires c > 0 && q * c <= x
    ensures q <= x / c
  {
    var d := x / c;
    assert x == d * c + x % c;
    assert q * c < (d + 1) * c;
    MulCancelLt(q, d + 1, c);
  }

  lemma DivUpper(x: nat, c: nat, q: nat)
    requires c > 0 && x < (q + 1) * c
    ensures x / c <= q
  {
    var d := x / c;
    assert x == d * c + x % c;
    assert d * c < (q + 1) * c;
    MulCancelLt(d, q + 1, c);
  }

  /**
   * `hex_to_rgb` succeeds exactly when at least three characters remain after
   * stripping `#` and all of them are hex digits.
   */
  lemma HexToRgbOk(value: string)
    ensures HexToRgb(value).Ok? <==> |Strip(value, '#')| >= 3 && AllHex(Strip(value, '#'))
  {
    var v := Strip(value, '#');
    if |v| >= 3 {
      var cs := Chunks(v, |v| / 3);
      if AllHex(v) {
        ChunksOfHex(v, |v| / 3);
      }
      if ParseAll(cs).Ok? {
        HexOfChunks(v, |v| / 3);
      }
    }
  }

  /** A string of `3c` digits is cut into exactly three runs. */
  lemma ThreeRuns(lv: nat)
    requires lv >= 3 && lv % 3 == 0
    ensures RunCount(lv) == 3
  {
    var c := lv / 3;
    assert lv == 3 * c;
    DivLower(lv + c - 1, c, 3);
    DivUpper(lv + c - 1, c, 3);
  }

  /** Every stripped length of three or more gives at least three runs, as `rgb_list[i][2]` needs. */
  lemma AtLeastThreeRuns(lv: nat)
    requires lv >= 3
    ensures RunCount(lv) >= 3
  {
    var c := lv / 3;
    assert lv == 3 * c + lv % 3;
    DivLower(lv + c - 1, c, 3);
  }

  /** Seven digits leave a fourth, one-digit run: `hex_to_rgb` returns four values. */
  lemma SevenDigitsGiveFour()
    ensures RunCount(7) == 4
  {
  }

  /** Six hex digits: three channels, each its digit pair over 256, so each below 1. */
  lemma SixDigits(value: string)
    requires |Strip(value, '#')| == 6 && AllHex(Strip(value, '#'))
    ensures var v := Strip(value, '#');
      HexToRgb(value) == Ok([Value(v[0..2]) as real / 256.0, Value(v[2..4]) as real / 256.0,
                             Value(v[4..6]) as real / 256.0])
    ensures forall i :: 0 <= i < 3 ==> HexToRgb(value).value[i] < 1.0
  {
    SixStripped(Strip(value, '#'));
  }

  lemma SixStripped(v: string)
    requires |v| == 6 && AllHex(v)
    ensures FromStripped(v) == Ok([Value(v[0..2]) as real / 256.0, Value(v[2..4]) as real / 256.0,
                                   Value(v[4..6]) as real / 256.0])
    ensures forall i :: 0 <= i < 3 ==> FromStripped(v).value[i] < 1.0
  {
    var cs := SixChunks(v);
    assert |v| / 3 == 2;
    assert ParseInt16(cs[0]).Ok? && ParseInt16(cs[1]).Ok? && ParseInt16(cs[2]).Ok?;
    assert ParseAll(cs).Ok?;
    var vals := ParseAll(cs).value;
    assert vals[0] == Value(v[0..2]) && vals[1] == Value(v[2..4]) && vals[2] == Value(v[4..6]);
    forall i | 0 <= i < 3 ensures vals[i] <= 255 {
      TwoDigitsAtMost255(cs[i]);
    }
    var r := FromStripped(v).value;
    assert r == [vals[0] as real / 256.0, vals[1] as real / 256.0, vals[2] as real / 256.0];
  }

  lemma SixChunks(v: string) returns (cs: seq<string>)
    requires |v| == 6 && AllHex(v)
    ensures cs == Chunks(v, 2) == [v[0..2], v[2..4], v[4..6]]
    ensures AllHex(cs[0]) && AllHex(cs[1]) && AllHex(cs[2])
  {
    assert v[2..][..2] == v[2..4] && v[2..][2..] == v[4..] == v[4..6];
    assert Chunks(v[4..], 2) == [v[4..6]];
    assert Chunks(v[2..], 2) == [v[2..4], v[4..6]];
    cs := Chunks(v, 2);
  }

  /** `[hex_to_rgb(i) for i in hex_list]`. */
  function RgbList(hexList: seq<string>): (r: Result<seq<seq<real>>>)
    ensures r.Ok? <==> forall i :: 0 <= i < |hexList| ==> HexToRgb(hexList[i]).Ok?
    ensures r.Ok? ==> |r.value| == |hexList|
    ensures r.Ok? ==> forall i :: 0 <= i < |hexList| ==> HexToRgb(hexList[i]) == Ok(r.value[i])
    ensures r.Ok? ==> forall i :: 0 <= i < |hexList| ==> |r.value[i]| >= 3
  {
    MapAll(HexToRgb, hexList)
  }

  /** A falsy `float_list` (absent or empty) means `linspace(0, 1, n)`. */
  function Positions(n: nat, floatList: Option<seq<real>>): (r: seq<real>)
    ensures floatList.Some? && floatList.value != [] ==> r == floatList.value
    ensures floatList.None? || floatList.value == [] ==> r == Linspace.Linspace(0.0, 1.0, n)
  {
    if floatList.None? || floatList.value == [] then Linspace.Linspace(0.0, 1.0, n) else floatList.value
  }

  /** One anchor of a channel's segment data: `(x, y0, y1)`. */
  datatype Anchor = Anchor(x: real, below: real, above: real)

  /** A `LinearSegmentedColormap(name, segmentdata, N)` as constructed. */
  datatype SegmentedColormap = SegmentedColormap(name: string, segmentData: map<string, seq<Anchor>>, n: nat)

  const ChannelNames: seq<string> := ["red", "green", "blue"]

  /** The anchors of channel `ch`: one per position, the colour's channel on both sides. */
  function Segment(pos: seq<real>, rgbs: seq<seq<real>>, ch: nat): (r: seq<Anchor>)
    requires ch < 3 && |pos| <= |rgbs| && forall i :: 0 <= i < |rgbs| ==> |rgbs[i]| >= 3
    ensures |r| == |pos|
    ensures forall i :: 0 <= i < |pos| ==> r[i].x == pos[i] && r[i].below == rgbs[i][ch] == r[i].above
  {
    seq(|pos|, i requires 0 <= i < |pos| => Anchor(pos[i], rgbs[i][ch], rgbs[i][ch]))
  }

  /** `cdict`: the three channel names, each with its anchors. */
  function SegmentData(pos: seq<real>, rgbs: seq<seq<real>>): (d: map<string, seq<Anchor>>)
    requires |pos| <= |rgbs| && forall i :: 0 <= i < |rgbs| ==> |rgbs[i]| >= 3
    ensures d.Keys == {"red", "green", "blue"}
    ensures forall ch :: 0 <= ch < 3 ==> d[ChannelNames[ch]] == Segment(pos, rgbs, ch)
  {
    map["red" := Segment(pos, rgbs, 0), "green" := Segment(pos, rgbs, 1), "blue" := Segment(pos, rgbs, 2)]
  }

  /**
   * `get_continuous_cmap(hex_list, float_list)`: fails with the first colour
   * `hex_to_rgb` rejects, then with IndexError when there are more positions
   * than colours; otherwise a colormap named `my_cmp` with 256 levels.
   */
  function ContinuousCmap(hexList: seq<string>, floatList: Option<seq<real>>): (r: Result<SegmentedColormap>)
    ensures r.Ok? <==> RgbList(hexList).Ok? && |Positions(|hexList|, floatList)| <= |hexList|
    ensures RgbList(hexList).Ok? && |Positions(|hexList|, floatList)| > |hexList| ==>
      r == Err(IndexError("list index out of range"))
    ensures r.Ok? ==> (r.value.name == "my_cmp" && r.value.n == 256
      && r.value.segmentData.Keys == {"red", "green", "blue"})
  {
    var rgbs :- RgbList(hexList);
    var pos := Positions(|rgbs|, floatList);
    if |pos| > |rgbs| then Err(IndexError("list index out of range"))
    else Ok(SegmentedColormap("my_cmp", SegmentData(pos, rgbs), 256))
  }

  /** Channel `ch` anchors colour `i` at position `i`, with that colour's channel value on both sides. */
  lemma CmapAnchors(hexList: seq<string>, floatList: Option<seq<real>>, ch: nat, i: nat)
    requires ch < 3 && ContinuousCmap(hexList, floatList).Ok?
    ensures var s := ContinuousCmap(hexList, floatList).value.segmentData[ChannelNames[ch]];
      var pos := Positions(|hexList|, floatList);
      |s| == |pos| && (i < |pos| ==> (i < |hexList| && HexToRgb(hexList[i]).Ok?
        && s[i] == Anchor(pos[i], HexToRgb(hexList[i]).value[ch], HexToRgb(hexList[i]).value[ch])))
  {
  }

  /**
   * With the default positions and two or more colours, every channel's
   * anchors start at 0, end at 1 and do not decrease, as a segmented
   * colormap requires.
   */
  lemma DefaultAnchorsSpanUnit(hexList: seq<string>, ch: nat)
    requires ch < 3 && |hexList| >= 2 && ContinuousCmap(hexList, None).Ok?
    ensures var s := ContinuousCmap(hexList, None).value.segmentData[ChannelNames[ch]];
      && |s| == |hexList| && s[0].x == 0.0 && s[|s| - 1].x == 1.0
      && forall i :: 0 <= i < |s| - 1 ==> s[i].x <= s[i + 1].x
  {
    DefaultSegment(hexList, ch);
    EvenAnchorsSpanUnit(|hexList|, RgbList(hexList).value, ch);
  }

  /** The even positions over `[0, 1]` carried into a channel's anchors. */
  lemma EvenAnchorsSpanUnit(n: nat, rgbs: seq<seq<real>>, ch: nat)
    requires ch < 3 && 2 <= n <= |rgbs| && forall i :: 0 <= i < |rgbs| ==> |rgbs[i]| >= 3
    ensures var s := Segment(Linspace.Linspace(0.0, 1.0, n), rgbs, ch);
      && |s| == n && s[0].x == 0.0 && s[n - 1].x == 1.0
      && forall i :: 0 <= i < n - 1 ==> s[i].x <= s[i + 1].x
  {
    Linspace.Bounded(0.0, 1.0, n);
    Linspace.Endpoints(0.0, 1.0, n);
    AnchorsFollowPositions(Linspace.Linspace(0.0, 1.0, n), rgbs, ch);
  }

  lemma DefaultSegment(hexList: seq<string>, ch: nat)
    requires ch < 3 && ContinuousCmap(hexList, None).Ok?
    ensures RgbList(hexList).Ok? && |RgbList(hexList).value| == |hexList|
    ensures ContinuousCmap(hexList, None).value.segmentData[ChannelNames[ch]]
         == Segment(Linspace.Linspace(0.0, 1.0, |hexList|), RgbList(hexList).value, ch)
  {
  }

  /** Anchors inherit their positions' order and endpoints. */
  lemma AnchorsFollowPositions(pos: seq<real>, rgbs: seq<seq<real>>, ch: nat)
    requires ch < 3 && 2 <= |pos| <= |rgbs| && forall i :: 0 <= i < |rgbs| ==> |rgbs[i]| >= 3
    requires pos[0] == 0.0 && pos[|pos| - 1] == 1.0
    requires forall i :: 0 <= i < |pos| - 1 ==> pos[i] <= pos[i + 1]
    ensures var s := Segment(pos, rgbs, ch);
      && s[0].x == 0.0 && s[|s| - 1].x == 1.0
      && forall i :: 0 <= i < |s| - 1 ==> s[i].x <= s[i + 1].x
  {
  }

  /** A single colour yields the one anchor `x = 0`: the default positions never reach 1. */
  lemma SingleColourStopsAtZero(hexList: seq<string>, ch: nat)
    requires ch < 3 && |hexList| == 1 && ContinuousCmap(hexList, None).Ok?
    ensures var s := ContinuousCmap(hexList, None).value.segmentData[ChannelNames[ch]];
      |s| == 1 && s[0].x == 0.0
  {
    var s := Segment(Linspace.Linspace(0.0, 1.0, 1), RgbList(hexList).value, ch);
    Linspace.Endpoints(0.0, 1.0, 1);
    assert ContinuousCmap(hexList, None).value.segmentData[ChannelNames[ch]] == s;
  }

  /** Only the first `len(float_list)` colours are used when fewer positions are given. */
  lemma ShortPositionsDropColours(hexList: seq<string>, floatList: seq<real>, ch: nat)
    requires ch < 3 && 0 < |floatList| < |hexList| && ContinuousCmap(hexList, Some(floatList)).Ok?
    ensures |ContinuousCmap(hexList, Some(floatList)).value.segmentData[ChannelNames[ch]]| == |floatList|
  {
    var s := Segment(floatList, RgbList(hexList).value, ch);
    assert ContinuousCmap(hexList, Some(floatList)).value.segmentData[ChannelNames[ch]] == s;
  }

  /**
   * `get_continuous_cmap(hex_list, float_list)`: the colours converted, the
   * positions chosen, then the segment data filled channel by channel.
   */
  method GetContinuousCmap(hexList: seq<string>, floatList: Option<seq<real>>) returns (r: Result<SegmentedColormap>)
    ensures r == ContinuousCmap(hexList, floatList)
  {
    var rgbs :- RgbList(hexList);
    var pos := Positions(|rgbs|, floatList);
    var cdict :- FillChannels(pos, rgbs);
    return Ok(SegmentedColormap("my_cmp", cdict, 256));
  }

  /**
   * The loop over `red`, `green` and `blue`: the first channel's
   * comprehension raises IndexError when positions outnumber colours.
   */
  method FillChannels(pos: seq<real>, rgbs: seq<seq<real>>) returns (r: Result<map<string, seq<Anchor>>>)
    requires forall i :: 0 <= i < |rgbs| ==> |rgbs[i]| >= 3
    ensures |pos| > |rgbs| ==> r == Err(IndexError("list index out of range"))
    ensures |pos| <= |rgbs| ==> r == Ok(SegmentData(pos, rgbs))
  {
    var cdict: map<string, seq<Anchor>> := map[];
    for num := 0 to 3
      invariant cdict.Keys == Elems(ChannelNames[..num])
      invariant num > 0 ==> |pos| <= |rgbs|
      invariant forall k :: 0 <= k < num ==> cdict[ChannelNames[k]] == Segment(pos, rgbs, k)
    {
      if |pos| > |rgbs| {
        return Err(IndexError("list index out of range"));
      }
      var colList := Segment(pos, rgbs, num);
      assert ChannelNames[..num + 1] == ChannelNames[..num] + [ChannelNames[num]];
      cdict := cdict[ChannelNames[num] := colList];
    }
    SameSegmentData(cdict, pos, rgbs);
    return Ok(cdict);
  }

  lemma SameSegmentData(cdict: map<string, seq<Anchor>>, pos: seq<real>, rgbs: seq<seq<real>>)
    requires |pos| <= |rgbs| && forall i :: 0 <= i < |rgbs| ==> |rgbs[i]| >= 3
    requires cdict.Keys == Elems(ChannelNames[..3])
    requires forall k :: 0 <= k < 3 ==> cdict[ChannelNames[k]] == Segment(pos, rgbs, k)
    ensures cdict == SegmentData(pos, rgbs)
  {
    assert ChannelNames[..3] == ["red", "green", "blue"];
    assert Elems(ChannelNames[..3]) == {"red", "green", "blue"};
    var d := SegmentData(pos, rgbs);
    assert cdict["red"] == d["red"] && cdict["green"] == d["green"] && cdict["blue"] == d["blue"] by {
      assert ChannelNames[0] == "red" && ChannelNames[1] == "green" && ChannelNames[2] == "blue";
    }
  }
}
