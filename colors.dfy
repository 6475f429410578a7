/** Colour arithmetic of the wallpaper background: `lightenColor` and
    `darkenColor` of src/components/IPhoneWallpaper.jsx, computed exactly in
    integers. A colour is the array of channel values the colour extractor
    returns; both maps work channel by channel on an array of any length. */
module Colors {

  /** A colour as the component passes it around: an array of channels. */
  type Color = seq<int>

  predicate IsChannel(c: int) {
    0 <= c <= 255
  }

  /** Every channel of the colour lies in [0, 255]. */
  predicate IsChannels(color: Color) {
    forall i :: 0 <= i < |color| ==> IsChannel(color[i])
  }

  /** The dominant colour the extractor hands over: an RGB triple. */
  predicate IsRgb(color: Color) {
    |color| == 3 && IsChannels(color)
  }

  function Min(a: int, b: int): int { if a <= b then a else b }

  function Max(a: int, b: int): int { if a >= b then a else b }

  /** `Math.round(n / 100)`: the integer nearest to n/100, a half rounded up. */
  function RoundHundredths(n: int): (r: int)
    ensures 100 * r - 50 <= n < 100 * r + 50
  {
    (n + 50) / 100
  }

  /** One channel of `lightenColor`: `min(255, round(c + (255 - c) * amount / 100))`,
      with the sum scaled by 100 so that no fraction is ever formed. */
  function LightenChannel(c: int, amount: int): (r: int)
    ensures r <= 255
    ensures r == 255 || var n := 100 * c + (255 - c) * amount; 100 * r - 50 <= n < 100 * r + 50
    ensures r == 255 ==> 100 * c + (255 - c) * amount >= 25450
  {
    Min(255, RoundHundredths(100 * c + (255 - c) * amount))
  }

  /** One channel of `darkenColor`: `max(0, round(c - c * amount / 100))`. */
  function DarkenChannel(c: int, amount: int): (r: int)
    ensures r >= 0
    ensures r == 0 || var n := 100 * c - c * amount; 100 * r - 50 <= n < 100 * r + 50
    ensures r == 0 ==> 100 * c - c * amount < 50
  {
    Max(0, RoundHundredths(100 * c - c * amount))
  }

  /** `lightenColor(color, amount)`: the channel map applied to every channel. */
  function LightenColor(color: Color, amount: int): (r: Color)
    ensures |r| == |color|
    ensures forall i :: 0 <= i < |color| ==> r[i] == LightenChannel(color[i], amount)
    decreases |color|
  {
    if color == [] then [] else [LightenChannel(color[0], amount)] + LightenColor(color[1..], amount)
  }

  /** `darkenColor(color, amount)`: the channel map applied to every channel. */
  function DarkenColor(color: Color, amount: int): (r: Color)
    ensures |r| == |color|
    ensures forall i :: 0 <= i < |color| ==> r[i] == DarkenChannel(color[i], amount)
    decreases |color|
  {
    if color == [] then [] else [DarkenChannel(color[0], amount)] + DarkenColor(color[1..], amount)
  }

  // ---------------------------------------------------------------------------
  // Arithmetic helpers

  lemma MulMono(k: int, a1: int, a2: int)
    requires k >= 0 && a1 <= a2
    ensures k * a1 <= k * a2
  {
    assert k * a2 - k * a1 == k * (a2 - a1);
  }

  lemma RoundMono(n1: int, n2: int)
    requires n1 <= n2
    ensures RoundHundredths(n1) <= RoundHundredths(n2)
  {
  }

  // ---------------------------------------------------------------------------
  // One channel

  /** For a channel in [0, 255] and an amount in [0, 100], lightening stays
      in [c, 255]; the clamp at 255 never fires, so the result is exactly
      the rounded lightened value. */
  lemma LightenChannelBounds(c: int, amount: int)
    requires IsChannel(c) && 0 <= amount <= 100
    ensures c <= LightenChannel(c, amount) <= 255
    ensures var n := 100 * c + (255 - c) * amount;
            100 * LightenChannel(c, amount) - 50 <= n < 100 * LightenChannel(c, amount) + 50
  {
    MulMono(255 - c, 0, amount);
    MulMono(255 - c, amount, 100);
    RoundMono(100 * c, 100 * c + (255 - c) * amount);
    RoundMono(100 * c + (255 - c) * amount, 25500);
  }

  /** For a channel in [0, 255] and an amount in [0, 100], darkening stays
      in [0, c]; the clamp at 0 never fires. */
  lemma DarkenChannelBounds(c: int, amount: int)
    requires IsChannel(c) && 0 <= amount <= 100
    ensures 0 <= DarkenChannel(c, amount) <= c
    ensures var n := 100 * c - c * amount;
            100 * DarkenChannel(c, amount) - 50 <= n < 100 * DarkenChannel(c, amount) + 50
  {
    MulMono(c, 0, amount);
    MulMono(c, amount, 100);
    RoundMono(100 * c - c * amount, 100 * c);
    RoundMono(0, 100 * c - c * amount);
  }

  /** Lightening a channel is non-decreasing in the amount. */
  lemma LightenChannelMonotone(c: int, a1: int, a2: int)
    requires IsChannel(c) && a1 <= a2
    ensures LightenChannel(c, a1) <= LightenChannel(c, a2)
  {
    MulMono(255 - c, a1, a2);
    RoundMono(100 * c + (255 - c) * a1, 100 * c + (255 - c) * a2);
  }

  /** Darkening a channel is non-increasing in the amount. */
  lemma DarkenChannelAntitone(c: int, a1: int, a2: int)
    requires IsChannel(c) && a1 <= a2
    ensures DarkenChannel(c, a2) <= DarkenChannel(c, a1)
  {
    MulMono(c, a1, a2);
    RoundMono(100 * c - c * a2, 100 * c - c * a1);
  }

  /** The full amount drives a channel to white or to black. */
  lemma ChannelExtremes(c: int)
    requires IsChannel(c)
    ensures LightenChannel(c, 100) == 255
    ensures DarkenChannel(c, 100) == 0
  {
  }

  // ---------------------------------------------------------------------------
  // Whole colours

  /** Amount 0 gives back the colour it was given, for both maps. */
  lemma {:induction false} ZeroAmountIsIdentity(color: Color)
    requires IsChannels(color)
    ensures LightenColor(color, 0) == color
    ensures DarkenColor(color, 0) == color
  {
    var l, d := LightenColor(color, 0), DarkenColor(color, 0);
    forall i | 0 <= i < |color|
      ensures l[i] == color[i] && d[i] == color[i]
    {
      assert IsChannel(color[i]);
    }
  }

  /** Lightening keeps every channel between its old value and 255. */
  lemma LightenColorBounds(color: Color, amount: int)
    requires IsChannels(color) && 0 <= amount <= 100
    ensures |LightenColor(color, amount)| == |color|
    ensures forall i :: 0 <= i < |color| ==>
              color[i] <= LightenColor(color, amount)[i] <= 255
  {
    forall i | 0 <= i < |color|
      ensures color[i] <= LightenColor(color, amount)[i] <= 255
    {
      LightenChannelBounds(color[i], amount);
    }
  }

  /** Darkening keeps every channel between 0 and its old value. */
  lemma DarkenColorBounds(color: Color, amount: int)
    requires IsChannels(color) && 0 <= amount <= 100
    ensures |DarkenColor(color, amount)| == |color|
    ensures forall i :: 0 <= i < |color| ==>
              0 <= DarkenColor(color, amount)[i] <= color[i]
  {
    forall i | 0 <= i < |color|
      ensures 0 <= DarkenColor(color, amount)[i] <= color[i]
    {
      DarkenChannelBounds(color[i], amount);
    }
  }

  /** A larger amount lightens every channel at least as much. */
  lemma LightenColorMonotone(color: Color, a1: int, a2: int)
    requires IsChannels(color) && a1 <= a2
    ensures forall i :: 0 <= i < |color| ==>
              LightenColor(color, a1)[i] <= LightenColor(color, a2)[i]
  {
    forall i | 0 <= i < |color|
      ensures LightenColor(color, a1)[i] <= LightenColor(color, a2)[i]
    {
      LightenChannelMonotone(color[i], a1, a2);
    }
  }

  /** A larger amount darkens every channel at least as much. */
  lemma DarkenColorAntitone(color: Color, a1: int, a2: int)
    requires IsChannels(color) && a1 <= a2
    ensures forall i :: 0 <= i < |color| ==>
              DarkenColor(color, a2)[i] <= DarkenColor(color, a1)[i]
  {
    forall i | 0 <= i < |color|
      ensures DarkenColor(color, a2)[i] <= DarkenColor(color, a1)[i]
    {
      DarkenChannelAntitone(color[i], a1, a2);
    }
  }

  /** Example: 30 + 225 * 0.15 = 63.75 rounds to 64 and
      30 - 30 * 0.15 = 25.5 rounds up to 26. */
  lemma DarkGreyExample()
    ensures LightenColor([30, 30, 30], 15) == [64, 64, 64]
    ensures DarkenColor([30, 30, 30], 15) == [26, 26, 26]
  {
  }
}
