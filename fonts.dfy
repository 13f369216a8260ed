/** The CJK font search at the top of cofficient.py, sled.py and
    intro_majoy_2.py: the preferred font when it is installed, else the first
    installed font of a fixed fallback list, else none (Manim's own default). */
module Fonts {
  import opened JavaText

  const PreferredFont := "Noto Sans CJK SC"
  const FallbackFonts := ["PingFang SC", "Microsoft YaHei", "SimHei", "Arial Unicode MS"]

  /** The first of `candidates` that is installed. */
  function FirstInstalled(candidates: seq<string>, installed: seq<string>): (r: Option<string>)
    ensures r.Some? ==> r.value in candidates && r.value in installed
    ensures r.None? <==> forall k :: 0 <= k < |candidates| ==> candidates[k] !in installed
  {
    if candidates == [] then None
    else if candidates[0] in installed then Some(candidates[0])
    else FirstInstalled(candidates[1..], installed)
  }

  /** No candidate before the chosen one is installed. */
  lemma {:induction false} FirstInstalledIsFirst(candidates: seq<string>, installed: seq<string>)
    ensures var r := FirstInstalled(candidates, installed);
      r.Some? ==> exists k :: (0 <= k < |candidates| && candidates[k] == r.value
                               && forall j :: 0 <= j < k ==> candidates[j] !in installed)
  {
    if candidates != [] && candidates[0] !in installed {
      FirstInstalledIsFirst(candidates[1..], installed);
      var r := FirstInstalled(candidates, installed);
      if r.Some? {
        var k :| 0 <= k < |candidates[1..]| && candidates[1..][k] == r.value
          && forall j :: 0 <= j < k ==> candidates[1..][j] !in installed;
        assert candidates[k + 1] == r.value;
        forall j | 0 <= j < k + 1
          ensures candidates[j] !in installed
        {
          if j > 0 { assert candidates[j] == candidates[1..][j - 1]; }
        }
      }
    } else if candidates != [] {
      assert candidates[0] == FirstInstalled(candidates, installed).value;
    }
  }

  /** The font the scripts end up with for the list of installed fonts: it is
      installed and is the preferred one or a fallback; it is the preferred one
      whenever that is installed; there is none only when neither the preferred
      font nor any fallback is installed. */
  function ChosenFont(installed: seq<string>): (f: Option<string>)
    ensures f.Some? ==> f.value in installed && (f.value == PreferredFont || f.value in FallbackFonts)
    ensures f.None? <==> PreferredFont !in installed && forall k :: 0 <= k < |FallbackFonts| ==> FallbackFonts[k] !in installed
    ensures PreferredFont in installed ==> f == Some(PreferredFont)
  {
    if PreferredFont in installed then Some(PreferredFont) else FirstInstalled(FallbackFonts, installed)
  }

  /** cofficient.py and sled.py: `final_font` found by a loop with a flag. */
  method ChooseFont(installed: seq<string>) returns (finalFont: Option<string>)
    ensures finalFont == ChosenFont(installed)
  {
    finalFont := None;
    if PreferredFont in installed {
      finalFont := Some(PreferredFont);
    } else {
      var fallbackFonts := FallbackFonts;
      var foundFallback := false;
      for i := 0 to |fallbackFonts|
        invariant !foundFallback && finalFont.None?
        invariant FirstInstalled(fallbackFonts, installed) == FirstInstalled(fallbackFonts[i..], installed)
      {
        assert fallbackFonts[i..][0] == fallbackFonts[i] && fallbackFonts[i..][1..] == fallbackFonts[i + 1..];
        if fallbackFonts[i] in installed {
          finalFont := Some(fallbackFonts[i]);
          foundFallback := true;
          break;
        }
      }
    }
  }

  /** intro_majoy_2.py rebinds the module's `DEFAULT_FONT`; `setup` then sets the
      default font of Text only when `DEFAULT_FONT` is not None. */
  class FontSettings {
    var defaultFont: Option<string>
    var textDefault: Option<string>

    constructor()
      ensures defaultFont == Some(PreferredFont) && textDefault == None
    {
      defaultFont := Some(PreferredFont);
      textDefault := None;
    }

    /** The rebinding search: keep the preferred font when installed, else take
        the first installed fallback, else None. */
    method Rebind(installed: seq<string>)
      requires defaultFont == Some(PreferredFont)
      modifies this
      ensures defaultFont == ChosenFont(installed)
      ensures textDefault == old(textDefault)
    {
      if PreferredFont !in installed {
        var fallbackFonts := FallbackFonts;
        var foundFallback := false;
        for i := 0 to |fallbackFonts|
          invariant !foundFallback && defaultFont == Some(PreferredFont) && textDefault == old(textDefault)
          invariant FirstInstalled(fallbackFonts, installed) == FirstInstalled(fallbackFonts[i..], installed)
        {
          assert fallbackFonts[i..][0] == fallbackFonts[i] && fallbackFonts[i..][1..] == fallbackFonts[i + 1..];
          if fallbackFonts[i] in installed {
            defaultFont := Some(fallbackFonts[i]);
            foundFallback := true;
            break;
          }
        }
        if !foundFallback {
          defaultFont := None;
        }
      }
    }

    /** `setup`: `Text.set_default(font=DEFAULT_FONT)` only for a font. */
    method Setup()
      modifies this
      ensures defaultFont == old(defaultFont)
      ensures textDefault == if defaultFont.Some? then defaultFont else old(textDefault)
    {
      if defaultFont.Some? {
        textDefault := defaultFont;
      }
    }
  }

  /** The script's start-up sequence: the Text default becomes the chosen font,
      and stays Manim's default when there is none, exactly as cofficient.py's
      `final_font` drives its own `setup`. */
  method StartScene(installed: seq<string>) returns (settings: FontSettings)
    ensures fresh(settings)
    ensures settings.defaultFont == ChosenFont(installed)
    ensures settings.textDefault == ChosenFont(installed)
  {
    settings := new FontSettings();
    settings.Rebind(installed);
    settings.Setup();
  }
}
