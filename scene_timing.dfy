/** The duration arithmetic of the narrated scenes. A scene plays its
    animations, waits for the narration's remainder only when that remainder is
    positive (or clamps it with `max(0, ...)`), then fades the subtitle out; the
    length of such a block is a maximum. Durations are reals. */
module SceneTiming {
  import opened JavaText

  function Max(a: real, b: real): real { if a >= b then a else b }
  function Min(a: real, b: real): real { if a <= b then a else b }

  /** `if x > 0: self.wait(x)`, and equally `max(0, x)`. */
  function PositivePart(x: real): real { if x > 0.0 then x else 0.0 }

  /** A block that plays `played` seconds of animation, then waits
      `d - planned - fade` when that is positive, then fades for `fade`. */
  function TimedBlock(d: real, played: real, planned: real, fade: real): real
  {
    played + PositivePart(d - planned - fade) + fade
  }

  /** The same block where a narration of no positive duration is replaced by a
      fixed `fallback` wait. */
  function GuardedBlock(d: real, played: real, planned: real, fade: real, fallback: real): real
  {
    if d > 0.0 then TimedBlock(d, played, planned, fade) else played + fallback + fade
  }

  /** A wait-when-positive block lasts as long as the narration plus whatever the
      plan left out, or as long as its own animations, whichever is longer. */
  lemma TimedBlockLength(d: real, played: real, planned: real, fade: real)
    ensures TimedBlock(d, played, planned, fade) == Max(d + (played - planned), played + fade)
    ensures TimedBlock(d, played, planned, fade) >= played + fade
  {
  }

  lemma GuardedBlockLength(d: real, played: real, planned: real, fade: real, fallback: real)
    ensures d > 0.0 ==> GuardedBlock(d, played, planned, fade, fallback) == Max(d + (played - planned), played + fade)
    ensures d <= 0.0 ==> GuardedBlock(d, played, planned, fade, fallback) == played + fallback + fade
  {
    TimedBlockLength(d, played, planned, fade);
  }

  /* ---------- cofficient.py ---------- */

  const CofficientScene1Planned: real := 2.5 + 1.5 + 3.0 * (0.6 + 0.2) + 1.5

  /** Scene 1: 7.9 s of animation, then a 1 s fade; the block lasts max(d, 8.9). */
  lemma CofficientScene1(d: real)
    ensures CofficientScene1Planned == 7.9
    ensures TimedBlock(d, CofficientScene1Planned, CofficientScene1Planned, 1.0) == Max(d, 8.9)
  {
    TimedBlockLength(d, CofficientScene1Planned, CofficientScene1Planned, 1.0);
  }

  /** Scene 3, part 3: `remaining_wait_part3` for a narration of `d` seconds. */
  function CofficientPart3Remaining(d: real): real
  {
    var animate := d - 1.0;
    var planned := 0.5 + 0.5 + animate;
    d - planned - 1.0
  }

  /** The plan of part 3 is the narration itself, so the remainder is always -1
      and the wait never runs. */
  lemma CofficientPart3NeverWaits(d: real)
    ensures CofficientPart3Remaining(d) == -1.0 && PositivePart(CofficientPart3Remaining(d)) == 0.0
  {
  }

  /** The three items of the scene-6 summary list. */
  const CofficientSummaryItems: nat := 3

  /** `list_write_time_per_item` */
  function CofficientPerItem(d: real): real
  {
    Max((d - 1.0 - 1.0) / CofficientSummaryItems as real, 1.5)
  }

  /** `current_item_run_time` for an item started at renderer time `now`. */
  function CofficientItemRunTime(d: real, now: real): real
  {
    Max(Min(CofficientPerItem(d), d - now - 1.5), 0.1)
  }

  /** Every summary item runs between 0.1 s and max((d - 2)/3, 1.5) s, whenever it starts. */
  lemma CofficientItemRunTimeBounds(d: real, now: real)
    ensures 0.1 <= CofficientItemRunTime(d, now) <= Max((d - 2.0) / 3.0, 1.5)
  {
  }

  /** The symmetry axis x = -b/(2a), drawn only when a is not 0. */
  function SymmetryAxis(a: real, b: real): (x: Option<real>)
    ensures x.Some? <==> a != 0.0
  {
    if a != 0.0 then Some(-b / (2.0 * a)) else None
  }

  function Parabola(a: real, b: real, c: real, x: real): real
  {
    a * x * x + b * x + c
  }

  /** The parabola is symmetric about the axis the scene draws. */
  lemma SymmetryAxisIsAxis(a: real, b: real, c: real, t: real)
    requires a != 0.0
    ensures var x0 := SymmetryAxis(a, b).value;
      Parabola(a, b, c, x0 + t) == Parabola(a, b, c, x0 - t)
  {
    var x0 := -b / (2.0 * a);
    assert 2.0 * a * x0 == -b;
    calc {
      Parabola(a, b, c, x0 + t) - Parabola(a, b, c, x0 - t);
      a * ((x0 + t) * (x0 + t) - (x0 - t) * (x0 - t)) + b * ((x0 + t) - (x0 - t));
      { assert (x0 + t) * (x0 + t) - (x0 - t) * (x0 - t) == 4.0 * x0 * t; }
      a * (4.0 * x0 * t) + b * (2.0 * t);
      2.0 * t * (2.0 * a * x0 + b);
      0.0;
    }
  }

  /* ---------- avoid_flood2.py ---------- */

  /** The nine steps of the scene-2 list. */
  const FloodSteps: seq<string> := [
    "按年最大值法选样", "资料可靠性、一致性、代表性审查", "特大洪水频率处理",
    "峰、量频率计算", "分析计算安全修正值", "查算设计洪峰和设计洪量",
    "频率计算成果合理性检验", "选择典型洪水", "同倍比或同频率缩放得出设计洪水过程线"]

  /** `estimated_item_reveal_time` */
  function RevealTime(d: real): (t: real)
    ensures t >= 5.0 && t >= d - 6.0
  {
    Max(5.0, d - 6.0)
  }

  /** The scene-2 list: each step is given `estimated / 9` of delay and at most
      half a second of fade; the loop adds up the delays into the run time of
      the `LaggedStart`, which is the whole estimate. */
  method RevealSteps(d: real) returns (perItemDelay: real, perItemRuntime: real, runTime: real)
    ensures perItemDelay == RevealTime(d) / 9.0
    ensures perItemRuntime == Min(0.5, perItemDelay * 0.8) && perItemRuntime <= 0.5
    ensures runTime == RevealTime(d)
  {
    var estimated := RevealTime(d);
    perItemDelay := estimated / |FloodSteps| as real;
    perItemRuntime := Min(0.5, perItemDelay * 0.8);
    var currentAnimTime := 0.0;
    for i := 0 to |FloodSteps|
      invariant currentAnimTime == i as real * perItemDelay
    {
      currentAnimTime := currentAnimTime + perItemDelay;
    }
    runTime := currentAnimTime;
  }

  /** `scale_factor`: the design peak over the typical peak, or 1 for a zero peak. */
  function ScaleFactor(designQ: real, typicalPeak: real): real
  {
    if typicalPeak != 0.0 then designQ / typicalPeak else 1.0
  }

  /** `scaled_func` */
  function Scaled(typical: real -> real, designQ: real, typicalPeak: real, t: real): real
  {
    ScaleFactor(designQ, typicalPeak) * typical(t)
  }

  /** Same-ratio scaling: every ordinate is multiplied by one constant, so any
      two ordinates keep their ratio, and the scaled curve reaches the design
      flow at the typical peak's time. */
  lemma SameRatioScaling(typical: real -> real, designQ: real, peakT: real, t: real, u: real)
    requires typical(peakT) != 0.0
    ensures Scaled(typical, designQ, typical(peakT), peakT) == designQ
    ensures Scaled(typical, designQ, typical(peakT), t) * typical(u) == Scaled(typical, designQ, typical(peakT), u) * typical(t)
  {
    var k := designQ / typical(peakT);
    assert k * typical(peakT) == designQ;
    assert k * typical(t) * typical(u) == k * typical(u) * typical(t);
  }

  /** `wait_after_ending` in the closing scene. */
  function WaitAfterEnding(d: real): real
  {
    var animEnd := 1.0;
    var timeBeforeEnding := d - animEnd - 1.5;
    var current := 1.0 + 2.5 + 2.5;
    var waitBeforeEnding := timeBeforeEnding - current;
    d - (current + Max(0.0, waitBeforeEnding) + animEnd)
  }

  lemma WaitAfterEndingCases(d: real)
    ensures d >= 8.5 ==> WaitAfterEnding(d) == 1.5
    ensures d < 8.5 ==> WaitAfterEnding(d) == d - 7.0
  {
  }

  /* ---------- 15.py ---------- */

  /** The highlight time of scene 4: 1.1 s per highlighted point, 0.8 s per arrow. */
  function HighlightTime(highlights: nat, arrows: nat): (h: real)
    ensures h >= 0.0
  {
    highlights as real * (0.8 + 0.3) + arrows as real * 0.8
  }

  /** The `anim_duration` of each of the five scenes. */
  function UnitCirclePlanned(scene: nat, highlights: nat, arrows: nat): real
    requires 1 <= scene <= 5
  {
    match scene
    case 1 => 1.0 + 1.5 + 1.5 + 1.0 + 1.0 + 0.5
    case 2 => 1.0 + 1.0 + 1.0 + 5.0
    case 3 => 0.5 + 2.0 + 6.0
    case 4 => 1.0 + 2.0 + HighlightTime(highlights, arrows)
    case 5 => 1.0 + 0.5 + 2.0 + 1.0 + 1.5
  }

  /** `wait_time = max(0, d - anim_duration - 0.5)` */
  function UnitCircleWait(d: real, planned: real): (w: real)
    ensures w >= 0.0 && w >= d - planned - 0.5
    ensures w == 0.0 || w == d - planned - 0.5
  {
    PositivePart(d - planned - 0.5)
  }

  /** With the subtitle's 0.5 s fade, each scene lasts max(d, planned + 0.5);
      the fixed scenes plan 6.5, 8, 8.5 and 6 s. */
  lemma UnitCircleBlock(d: real, scene: nat, highlights: nat, arrows: nat)
    requires 1 <= scene <= 5
    ensures var p := UnitCirclePlanned(scene, highlights, arrows);
      p + UnitCircleWait(d, p) + 0.5 == Max(d, p + 0.5)
    ensures scene == 1 ==> UnitCirclePlanned(scene, highlights, arrows) == 6.5
    ensures scene == 2 ==> UnitCirclePlanned(scene, highlights, arrows) == 8.0
    ensures scene == 3 ==> UnitCirclePlanned(scene, highlights, arrows) == 8.5
    ensures scene == 4 ==> UnitCirclePlanned(scene, highlights, arrows) >= 3.0
    ensures scene == 5 ==> UnitCirclePlanned(scene, highlights, arrows) == 6.0
  {
  }

  /* ---------- sled.py ---------- */

  const SledScene1Planned: real := 2.0 + 1.0 + 1.5 + 0.5 + 2.0 + 1.0 + 0.8 + 0.8 + 1.0 + 1.5

  /** Scene 1 lasts max(d, 13.1) with narration, and 15.1 without, because of the fixed 2 s wait. */
  lemma SledScene1(d: real)
    ensures SledScene1Planned == 12.1
    ensures d > 0.0 ==> GuardedBlock(d, SledScene1Planned, SledScene1Planned, 1.0, 2.0) == Max(d, 13.1)
    ensures d <= 0.0 ==> GuardedBlock(d, SledScene1Planned, SledScene1Planned, 1.0, 2.0) == 15.1
  {
    GuardedBlockLength(d, SledScene1Planned, SledScene1Planned, 1.0, 2.0);
  }

  /* ---------- 12.py ---------- */

  /** Scene 2 plays intro, base, the camera move and the stack (1.5 + 2 + 1.5 +
      1.5) but plans only 5 s; without narration it waits 1.5 s. */
  function CubesScene2Block(d: real): real
  {
    GuardedBlock(d, 1.5 + 2.0 + 1.5 + 1.5, 1.5 + 2.0 + 1.5, 1.0, 1.5)
  }

  /** Scene 3: intro, slice, camera move, extension (1.5 + 1.5 + 2 + 2), planned 5 s. */
  function CubesScene3Block(d: real): real
  {
    GuardedBlock(d, 1.5 + 1.5 + 2.0 + 2.0, 1.5 + 1.5 + 2.0, 1.0, 1.5)
  }

  /** The camera moves the plans leave out make the blocks outlast the narration
      by 1.5 s and 2 s. */
  lemma CubesBlocksOverrun(d: real)
    ensures d > 0.0 ==> CubesScene2Block(d) == Max(d + 1.5, 7.5) && CubesScene3Block(d) == Max(d + 2.0, 8.0)
    ensures d <= 0.0 ==> CubesScene2Block(d) == 9.0 && CubesScene3Block(d) == 9.5
  {
    GuardedBlockLength(d, 1.5 + 2.0 + 1.5 + 1.5, 1.5 + 2.0 + 1.5, 1.0, 1.5);
    GuardedBlockLength(d, 1.5 + 1.5 + 2.0 + 2.0, 1.5 + 1.5 + 2.0, 1.0, 1.5);
  }

  /** Scene 1 plans what it plays (1.5 + 0.5 + 1); without narration it waits 2 s. */
  lemma CubesScene1(d: real)
    ensures d > 0.0 ==> GuardedBlock(d, 1.5 + 0.5 + 1.0, 1.5 + 0.5 + 1.0, 1.0, 2.0) == Max(d, 4.0)
    ensures d <= 0.0 ==> GuardedBlock(d, 1.5 + 0.5 + 1.0, 1.5 + 0.5 + 1.0, 1.0, 2.0) == 6.0
  {
    GuardedBlockLength(d, 1.5 + 0.5 + 1.0, 1.5 + 0.5 + 1.0, 1.0, 2.0);
  }

  /* ---------- avoid_flood.py ---------- */

  /** `total_list_anim_time`, shared out evenly over the nine steps. */
  function FloodListTotal(d: real): (t: real)
    ensures t >= 5.0
  {
    Max(5.0, d - (0.5 + 2.0 + 0.5 + 1.0 + 1.0 + 2.0))
  }

  function FloodItemDuration(d: real): real
  {
    FloodListTotal(d) / |FloodSteps| as real
  }

  lemma FloodListTiming(d: real)
    ensures FloodListTotal(d) == Max(5.0, d - 7.0)
    ensures 9.0 * FloodItemDuration(d) == FloodListTotal(d)
    ensures FloodItemDuration(d) >= 5.0 / 9.0
  {
  }

  /** The clamped waits of scenes 1, 2, 3 and the summary. The list's run time
      reserves 7 s besides the list but the wait after it subtracts only 5 s,
      so a narration of 12 s or more is followed by 2 s of extra wait. */
  lemma FloodWaitsClamped(d: real, pointsTime: real)
    ensures PositivePart(d - (0.5 + 2.0 + 0.5 + 1.0) - pointsTime - 1.0) >= 0.0
    ensures PositivePart(d - (0.5 + 2.0 + 0.5 + 1.0) - FloodListTotal(d) - 1.0) == if d >= 12.0 then 2.0 else PositivePart(d - 10.0)
    ensures PositivePart(d - (0.5 + (1.0 + 2.0 + 2.5 + 1.0) + 1.5 + (2.5 + 2.5 + 1.0) + 1.0) - 1.0) == PositivePart(d - 16.5)
    ensures PositivePart(d - (0.5 + (1.5 + 2.5 + 3.0 + 1.5)) - 1.0) == PositivePart(d - 10.0)
  {
  }

  const FloodTypicalPeak: real := 8.0
  const FloodDesignQp: real := 10.0

  /** The factor 10/8 lifts the typical peak exactly to the Qp line. */
  lemma FloodScaleReachesQp()
    ensures FloodDesignQp / FloodTypicalPeak == 1.25
    ensures FloodTypicalPeak * (FloodDesignQp / FloodTypicalPeak) == FloodDesignQp
  {
  }

  /* ---------- fx_xx.py ---------- */

  /** Scene 1 plays 1.5 + 2 s; scene 3 plays a 0.5 s fade-in its 15 s plan leaves out. */
  lemma TangentScenes(d: real)
    ensures d > 0.0 ==> GuardedBlock(d, 1.5 + 2.0, 1.5 + 2.0, 1.0, 1.0) == Max(d, 4.5)
    ensures d <= 0.0 ==> GuardedBlock(d, 1.5 + 2.0, 1.5 + 2.0, 1.0, 1.0) == 5.5
    ensures d > 0.0 ==> GuardedBlock(d, 0.5 + 15.0, 15.0, 1.0, 1.0) == Max(d + 0.5, 16.5)
  {
    GuardedBlockLength(d, 1.5 + 2.0, 1.5 + 2.0, 1.0, 1.0);
    GuardedBlockLength(d, 0.5 + 15.0, 15.0, 1.0, 1.0);
  }

  /* ---------- intro_majoy_2.py ---------- */

  /** The `elapsed_time` of the ten scenes, in order. */
  const MajorsElapsed: seq<real> := [
    2.0 + 1.5, 1.5 + 1.0 + 0.5 + 1.0, 1.0 + 1.0, 1.0 + 3.0, 1.0 + 1.0,
    1.5 + 0.5 + 1.0 + 1.0, 1.0 + 1.0, 1.0 + 3.0, 1.5 + 1.0, 1.5 + 1.0 + 1.0]

  lemma MajorsScenes(d: real)
    ensures MajorsElapsed == [3.5, 4.0, 2.0, 4.0, 2.0, 4.0, 2.0, 4.0, 2.5, 3.5]
    ensures TimedBlock(d, MajorsElapsed[0], MajorsElapsed[0], 1.0) == Max(d, 4.5)
    ensures TimedBlock(d, MajorsElapsed[1], MajorsElapsed[1], 1.0) == Max(d, 5.0)
  {
    TimedBlockLength(d, 3.5, 3.5, 1.0);
    TimedBlockLength(d, 4.0, 4.0, 1.0);
  }

  /* ---------- 05.py and 06.py ---------- */

  /** `play_voiceover`: fade in, show for max(d - 1, 0), fade out. */
  function SubtitleSpan(d: real): real
  {
    0.5 + Max(d - 1.0, 0.0) + 0.5
  }

  lemma SubtitleSpanIsMax(d: real)
    ensures SubtitleSpan(d) == Max(d, 1.0)
  {
  }

  /** 05.py scenes 1 and 2 (and the single block of 06.py) last as long as the
      narration or their animations; scene 3 waits out d - 1.5 after 12.5 s of
      animation its plan ignores, so from the sound's start it lasts max(d + 12, 13.5). */
  lemma TangentLessonScenes(d: real)
    ensures TimedBlock(d, 1.5 + 2.0, 3.5, 1.0) == Max(d, 4.5)
    ensures TimedBlock(d, 0.5 + 5.0, 0.5 + 5.0, 1.0) == Max(d, 6.5)
    ensures TimedBlock(d, 0.5 + 1.5 + 0.5 + 1.5 + 0.5 + 1.5 + 1.0 + 1.5 + 2.0 + 2.0, 0.5, 1.0) == Max(d + 12.0, 13.5)
  {
    TimedBlockLength(d, 3.5, 3.5, 1.0);
    TimedBlockLength(d, 5.5, 5.5, 1.0);
    TimedBlockLength(d, 12.5, 0.5, 1.0);
  }
}
