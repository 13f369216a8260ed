/** The mutable state of the narrated scenes: the twinkling-star updater of
    fx_xx.py (and its frozen copy in 05.py and 06.py), the `clear_and_reset` step
    between scenes, and the `set_font_size` method fx_xx.py adds to MathTex. */
module SceneState {
  import opened JavaText

  /** Python's `np.pi` written out; the sine itself is a parameter. */
  const Pi: real := 3.141592653589793

  /** `np.clip(x, lo, hi)` */
  function Clip(x: real, lo: real, hi: real): (r: real)
    requires lo <= hi
    ensures lo <= r <= hi
    ensures lo <= x <= hi ==> r == x
    ensures x < lo ==> r == lo
    ensures x > hi ==> r == hi
  {
    if x < lo then lo else if x > hi then hi else x
  }

  /** The attributes a star may carry; `getattr` falls back to 0.5, 0.5 and 0. */
  datatype StarTraits = StarTraits(baseOpacity: Option<real>, frequency: Option<real>, phase: Option<real>)

  function OrDefault(x: Option<real>, default: real): real
  {
    if x.Some? then x.value else default
  }

  /** `target_opacity` at scene time `t`. */
  function TargetOpacity(traits: StarTraits, t: real, sine: real -> real): (o: real)
    ensures 0.1 <= o <= 0.9
  {
    var base := OrDefault(traits.baseOpacity, 0.5);
    var frequency := OrDefault(traits.frequency, 0.5);
    var phase := OrDefault(traits.phase, 0.0);
    Clip(base + 0.4 * sine(2.0 * Pi * frequency * t + phase), 0.1, 0.9)
  }

  class Star {
    const traits: StarTraits
    var opacity: real

    constructor(traits: StarTraits, opacity: real)
      ensures this.traits == traits && this.opacity == opacity
    {
      this.traits := traits;
      this.opacity := opacity;
    }
  }

  /** The sum of the frame times `dts`. */
  function Total(dts: seq<real>): real
  {
    if dts == [] then 0.0 else Total(dts[..|dts| - 1]) + dts[|dts| - 1]
  }

  /** A mobject on stage, with the number of updaters attached to it. */
  class Mob {
    var updaters: nat

    constructor(updaters: nat)
      ensures this.updaters == updaters
    {
      this.updaters := updaters;
    }
  }

  /** `[m for m in self.mobjects if m is not None]` */
  function Present(mobjects: seq<Option<Mob>>): (r: seq<Mob>)
    ensures |r| <= |mobjects|
    ensures r == [] <==> forall k :: 0 <= k < |mobjects| ==> mobjects[k].None?
  {
    if mobjects == [] then []
    else if mobjects[0].Some? then [mobjects[0].value] + Present(mobjects[1..])
    else Present(mobjects[1..])
  }

  /** Every present mobject has lost its updaters. */
  ghost predicate UpdatersCleared(mobjects: seq<Option<Mob>>)
    reads set k | 0 <= k < |mobjects| && mobjects[k].Some? :: mobjects[k].value
  {
    forall k :: 0 <= k < |mobjects| && mobjects[k].Some? ==> mobjects[k].value.updaters == 0
  }

  /** The stage of fx_xx.py's scene (`advances`) and of 05.py and 06.py, whose
      `star_updater` never moves the scene time. `elapsed` is the video time the
      scene's `play` and `wait` calls have used. */
  class StarScene {
    const advances: bool
    const resetWait: real
    var sceneTime: real
    var mobjects: seq<Option<Mob>>
    var elapsed: real

    constructor(advances: bool, resetWait: real)
      ensures this.advances == advances && this.resetWait == resetWait
      ensures sceneTime == 0.0 && mobjects == [] && elapsed == 0.0
    {
      this.advances := advances;
      this.resetWait := resetWait;
      sceneTime := 0.0;
      mobjects := [];
      elapsed := 0.0;
    }

    /** `star_updater(star, dt)`: the opacity is read off the current scene time
        and clipped; fx_xx.py then moves the scene time on by `dt`. */
    method StarUpdater(star: Star, dt: real, sine: real -> real)
      modifies this, star
      ensures star.opacity == TargetOpacity(star.traits, old(sceneTime), sine)
      ensures sceneTime == if advances then old(sceneTime) + dt else old(sceneTime)
      ensures mobjects == old(mobjects) && elapsed == old(elapsed)
    {
      var currentTime := sceneTime;
      star.opacity := TargetOpacity(star.traits, currentTime, sine);
      if advances {
        sceneTime := sceneTime + dt;
      }
    }

    /** The updater over successive frames. The scene time is the sum of the
        frame times when it advances and never moves otherwise, so in 05.py and
        06.py every frame shows the opacity of the first one. */
    method RunFrames(star: Star, dts: seq<real>, sine: real -> real)
      requires dts != []
      modifies this, star
      ensures sceneTime == if advances then old(sceneTime) + Total(dts) else old(sceneTime)
      ensures advances ==> star.opacity == TargetOpacity(star.traits, old(sceneTime) + Total(dts[..|dts| - 1]), sine)
      ensures !advances ==> star.opacity == TargetOpacity(star.traits, old(sceneTime), sine)
      ensures 0.1 <= star.opacity <= 0.9
      ensures mobjects == old(mobjects) && elapsed == old(elapsed)
    {
      for i := 0 to |dts|
        invariant sceneTime == if advances then old(sceneTime) + Total(dts[..i]) else old(sceneTime)
        invariant i > 0 && advances ==> star.opacity == TargetOpacity(star.traits, old(sceneTime) + Total(dts[..i - 1]), sine)
        invariant i > 0 && !advances ==> star.opacity == TargetOpacity(star.traits, old(sceneTime), sine)
        invariant mobjects == old(mobjects) && elapsed == old(elapsed)
      {
        assert dts[..i + 1][..i] == dts[..i];
        StarUpdater(star, dts[i], sine);
      }
      assert dts[..|dts|] == dts;
    }

    /** Detach every present mobject's updaters. */
    method ClearUpdaters()
      modifies set k | 0 <= k < |mobjects| && mobjects[k].Some? :: mobjects[k].value
      ensures UpdatersCleared(mobjects)
    {
      for i := 0 to |mobjects|
        invariant forall k :: 0 <= k < i && mobjects[k].Some? ==> mobjects[k].value.updaters == 0
      {
        if mobjects[i].Some? {
          mobjects[i].value.updaters := 0;
        }
      }
    }

    /** `clear_and_reset`: updaters off, a half-second fade when anything is on
        stage, the stage emptied and the scene time back at 0; fx_xx.py then
        waits 0.1 s, 05.py and 06.py not at all. */
    method ClearAndReset()
      modifies this, set k | 0 <= k < |mobjects| && mobjects[k].Some? :: mobjects[k].value
      ensures UpdatersCleared(old(mobjects))
      ensures mobjects == [] && sceneTime == 0.0
      ensures elapsed == old(elapsed) + (if Present(old(mobjects)) != [] then 0.5 else 0.0) + resetWait
    {
      ClearUpdaters();
      if Present(mobjects) != [] {
        elapsed := elapsed + 0.5;
      }
      mobjects := [];
      sceneTime := 0.0;
      elapsed := elapsed + resetWait;
    }
  }

  /** 15.py's scene: the angle tracker, the two stored groups and the camera
      frame, which `clear_and_reset` puts back as they were at the start. */
  class UnitCircleScene {
    const frameWidth: real
    const frameHeight: real
    var theta: real
    var unitCircleElements: seq<Mob>
    var graphElements: seq<Mob>
    var mobjects: seq<Option<Mob>>
    var cameraCentre: (real, real, real)
    var cameraSize: (real, real)
    var elapsed: real

    constructor(frameWidth: real, frameHeight: real)
      ensures this.frameWidth == frameWidth && this.frameHeight == frameHeight
      ensures theta == 0.0 && unitCircleElements == [] && graphElements == [] && mobjects == []
      ensures cameraCentre == (0.0, 0.0, 0.0) && cameraSize == (frameWidth, frameHeight) && elapsed == 0.0
    {
      this.frameWidth := frameWidth;
      this.frameHeight := frameHeight;
      theta := 0.0;
      unitCircleElements := [];
      graphElements := [];
      mobjects := [];
      cameraCentre := (0.0, 0.0, 0.0);
      cameraSize := (frameWidth, frameHeight);
      elapsed := 0.0;
    }

    /** Detach the updaters of every present mobject that has some. */
    method ClearUpdaters()
      modifies set k | 0 <= k < |mobjects| && mobjects[k].Some? :: mobjects[k].value
      ensures UpdatersCleared(mobjects)
    {
      for i := 0 to |mobjects|
        invariant forall k :: 0 <= k < i && mobjects[k].Some? ==> mobjects[k].value.updaters == 0
      {
        if mobjects[i].Some? && mobjects[i].value.updaters > 0 {
          mobjects[i].value.updaters := 0;
        }
      }
    }

    /** `clear_and_reset`: θ at 0, both stored groups empty, the stage empty, the
        camera at the origin with the configured frame, and 0.1 s of wait after
        the half-second fade that runs only when something was on stage. */
    method ClearAndReset()
      modifies this, set k | 0 <= k < |mobjects| && mobjects[k].Some? :: mobjects[k].value
      ensures UpdatersCleared(old(mobjects))
      ensures theta == 0.0 && unitCircleElements == [] && graphElements == [] && mobjects == []
      ensures cameraCentre == (0.0, 0.0, 0.0) && cameraSize == (frameWidth, frameHeight)
      ensures elapsed == old(elapsed) + (if Present(old(mobjects)) != [] then 0.5 else 0.0) + 0.1
    {
      ClearUpdaters();
      if Present(mobjects) != [] {
        elapsed := elapsed + 0.5;
      }
      mobjects := [];
      cameraCentre := (0.0, 0.0, 0.0);
      cameraSize := (frameWidth, frameHeight);
      theta := 0.0;
      unitCircleElements := [];
      graphElements := [];
      elapsed := elapsed + 0.1;
    }
  }

  /** A MathTex with the `_font_size` it was built at and its rendered height. */
  class MathTexBox {
    var fontSize: real
    var height: real

    constructor(fontSize: real, height: real)
      ensures this.fontSize == fontSize && this.height == height
    {
      this.fontSize := fontSize;
      this.height := height;
    }

    /** `mathtex_set_font_size`: scale by new/old, then record the new size. A
        box whose `_font_size` is 0 raises ZeroDivisionError and is left as it was. */
    method SetFontSize(newFontSize: real) returns (raised: bool)
      modifies this
      ensures raised <==> old(fontSize) == 0.0
      ensures raised ==> fontSize == old(fontSize) && height == old(height)
      ensures !raised ==> fontSize == newFontSize && height == old(height) * (newFontSize / old(fontSize))
    {
      if fontSize == 0.0 {
        return true;
      }
      var scaleFactor := newFontSize / fontSize;
      height := height * scaleFactor;
      fontSize := newFontSize;
      raised := false;
    }
  }

  /** A box whose height is `k` times its font size keeps that ratio through
      every resize that does not raise, so sizes compose: resizing to a then to
      b gives the box built at b. */
  lemma ResizeKeepsRatio(fontSize: real, height: real, k: real, newFontSize: real)
    requires fontSize != 0.0 && height == k * fontSize
    ensures height * (newFontSize / fontSize) == k * newFontSize
  {
    assert height * (newFontSize / fontSize) == k * (fontSize * (newFontSize / fontSize));
  }
}
