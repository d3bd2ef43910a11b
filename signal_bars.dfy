/** The four-segment signal indicator drawn next to each platform: a level
    picks how many segments are lit and in which colour. */
module SignalBars {

  datatype SignalLevel = Strong | Medium | Weak | Bad

  /** Strength order of the levels, weakest first. */
  function SignalRank(level: SignalLevel): nat
  {
    match level
    case Bad => 0
    case Weak => 1
    case Medium => 2
    case Strong => 3
  }

  /** Number of lit segments for a level. */
  function ActiveBars(level: SignalLevel): (n: nat)
    ensures 1 <= n <= SegmentCount
    ensures n == SignalRank(level) + 1
  {
    match level
    case Strong => 4
    case Medium => 3
    case Weak => 2
    case Bad => 1
  }

  /** Colour of the lit segments: green, yellow, orange, red. */
  function LevelColor(level: SignalLevel): string
  {
    match level
    case Strong => "#22c55e"
    case Medium => "#eab308"
    case Weak => "#f97316"
    case Bad => "#ef4444"
  }

  /** Colour of a segment that is not lit. */
  const UnlitColor: string := "rgba(255,255,255,0.15)"

  const SegmentCount: nat := 4

  const SegmentWidth: nat := 6

  datatype Segment = Segment(width: nat, height: nat, color: string)

  /** Stepped height of the segment at position `i`. */
  function SegmentHeight(i: nat): nat
  {
    6 + i * 4
  }

  /** The segments the indicator renders, left to right. */
  function Segments(level: SignalLevel): (bars: seq<Segment>)
    ensures |bars| == SegmentCount
  {
    seq(SegmentCount, i requires 0 <= i < SegmentCount =>
      Segment(SegmentWidth, SegmentHeight(i),
        if i < ActiveBars(level) then LevelColor(level) else UnlitColor))
  }

  predicate IsLit(b: Segment)
  {
    b.color != UnlitColor
  }

  /** Number of lit segments in a row of segments. */
  function LitCount(bars: seq<Segment>): nat
  {
    if bars == [] then 0
    else LitCount(bars[..|bars| - 1]) + (if IsLit(bars[|bars| - 1]) then 1 else 0)
  }

  /** The indicator's table: strong lights 4 green segments, medium 3
      yellow, weak 2 orange, bad 1 red. */
  lemma SignalTable()
    ensures ActiveBars(Strong) == 4 && LevelColor(Strong) == "#22c55e"
    ensures ActiveBars(Medium) == 3 && LevelColor(Medium) == "#eab308"
    ensures ActiveBars(Weak) == 2 && LevelColor(Weak) == "#f97316"
    ensures ActiveBars(Bad) == 1 && LevelColor(Bad) == "#ef4444"
  {
  }

  /** The count map is injective: two levels that light as many segments
      are the same level. */
  lemma ActiveBarsInjective(a: SignalLevel, b: SignalLevel)
    ensures ActiveBars(a) == ActiveBars(b) ==> a == b
  {
  }

  /** No level is drawn in the unlit colour, and the four level colours
      differ from each other. */
  lemma LevelColorsDistinct(a: SignalLevel, b: SignalLevel)
    ensures LevelColor(a) != UnlitColor
    ensures LevelColor(a) == LevelColor(b) ==> a == b
  {
    assert LevelColor(a)[0] == '#' != UnlitColor[0];
    if a != b {
      assert LevelColor(a)[1] != LevelColor(b)[1] || LevelColor(a)[2] != LevelColor(b)[2];
    }
  }

  /** Segment `i` takes the level's colour exactly when `i` is below the
      level's count; otherwise it is drawn unlit. */
  lemma SegmentLitIff(level: SignalLevel, i: nat)
    requires i < SegmentCount
    ensures Segments(level)[i].color == LevelColor(level) <==> i < ActiveBars(level)
    ensures IsLit(Segments(level)[i]) <==> i < ActiveBars(level)
  {
    LevelColorsDistinct(level, level);
  }

  /** Heights strictly increase from left to right. */
  lemma HeightsIncrease(level: SignalLevel, i: nat, j: nat)
    requires i < j < SegmentCount
    ensures Segments(level)[i].height == 6 + 4 * i
    ensures Segments(level)[i].height < Segments(level)[j].height
  {
  }

  /** In the first `n` segments, the lit ones number min(n, count). */
  lemma {:induction false} LitPrefix(level: SignalLevel, n: nat)
    requires n <= SegmentCount
    ensures LitCount(Segments(level)[..n]) == if n < ActiveBars(level) then n else ActiveBars(level)
  {
    if n > 0 {
      var bars := Segments(level)[..n];
      assert bars[..n - 1] == Segments(level)[..n - 1];
      LitPrefix(level, n - 1);
      SegmentLitIff(level, n - 1);
    }
  }

  /** Exactly `ActiveBars(level)` of the rendered segments are lit. */
  lemma LitCountIsActiveBars(level: SignalLevel)
    ensures LitCount(Segments(level)) == ActiveBars(level)
  {
    LitPrefix(level, SegmentCount);
    assert Segments(level)[..SegmentCount] == Segments(level);
  }
}
