/** Decision rules of the Skin.Theme handler of CBuiltins::Execute. */
module SkinRules {
  import opened Text

  /**
   * The theme index after Skin.Theme(step): 0 or 1 moves forward, -1 moves
   * back, anything else stays; -1 stands for the skin's default theme, and
   * moving past either end wraps around.
   */
  function NextThemeIndex(current: int, count: nat, step: int): (r: int)
    ensures -1 <= r < count
    ensures step != 0 && step != 1 && step != -1 && -1 <= current < count ==> r == current
  {
    var moved := if step == 0 || step == 1 then current + 1 else if step == -1 then current - 1 else current;
    var wrapped := if moved > count - 1 then -1 else moved;
    if wrapped < -1 then count - 1 else wrapped
  }

  /** `k` presses of Skin.Theme(1). */
  function Advance(i: int, count: nat, k: nat): int
    decreases k
  {
    if k == 0 then i else Advance(NextThemeIndex(i, count, 1), count, k - 1)
  }

  /** Below the last theme, `k` presses move `k` places forward. */
  lemma {:induction false} AdvanceWithoutWrap(i: int, count: nat, k: nat)
    requires -1 <= i && i + k < count
    ensures Advance(i, count, k) == i + k
    decreases k
  {
    if k > 0 {
      AdvanceWithoutWrap(i + 1, count, k - 1);
    }
  }

  lemma {:induction false} AdvanceCompose(i: int, count: nat, a: nat, b: nat)
    ensures Advance(i, count, a + b) == Advance(Advance(i, count, a), count, b)
    decreases a
  {
    if a > 0 {
      AdvanceCompose(NextThemeIndex(i, count, 1), count, a - 1, b);
    }
  }

  /** With `count` themes, `count + 1` forward presses come back to where they started. */
  lemma ThemeCycle(i: int, count: nat)
    requires -1 <= i < count
    ensures Advance(i, count, count + 1) == i
  {
    AdvanceCompose(i, count, count - 1 - i, i + 2);
    AdvanceWithoutWrap(i, count, count - 1 - i);
    assert NextThemeIndex(count - 1, count, 1) == -1;
    AdvanceWithoutWrap(-1, count, i + 1);
  }

  /** Skin.Theme(-1) undoes Skin.Theme(1) from every index. */
  lemma BackUndoesAdvance(i: int, count: nat)
    requires -1 <= i < count
    ensures NextThemeIndex(NextThemeIndex(i, count, 1), count, -1) == i
  {
  }

  /** The setting written for an index: the theme's name, or SKINDEFAULT for -1. */
  function ThemeName(themes: seq<string>, index: int): (r: string)
    ensures 0 <= index < |themes| ==> r == themes[index]
    ensures index < 0 || index >= |themes| ==> r == "SKINDEFAULT"
    ensures r in themes || r == "SKINDEFAULT"
  {
    if index != -1 && index < |themes| && index >= 0 then themes[index] else "SKINDEFAULT"
  }

  /** The colour theme saved alongside: the theme's name with ".xml", except Textures.xml becomes defaults.xml. */
  function ColorTheme(themeAsXml: string, ignoreCase: bool): (r: string)
    ensures Equals(themeAsXml, "Textures.xml", ignoreCase) ==> r == "defaults.xml"
    ensures !Equals(themeAsXml, "Textures.xml", ignoreCase) ==> r == themeAsXml
    ensures !Equals(r, "Textures.xml", ignoreCase)
  {
    if Equals(themeAsXml, "Textures.xml", ignoreCase) then
      DifferAt("defaults.xml", "Textures.xml", 0, ignoreCase);
      "defaults.xml"
    else themeAsXml
  }

  /** Saving the colour theme of a saved colour theme changes nothing. */
  lemma ColorThemeIdempotent(themeAsXml: string, ignoreCase: bool)
    ensures ColorTheme(ColorTheme(themeAsXml, ignoreCase), ignoreCase) == ColorTheme(themeAsXml, ignoreCase)
  {
  }

  /** The first theme at or after `from` equal to `name`, or -1. */
  function FirstTheme(themes: seq<string>, name: string, ignoreCase: bool, from: nat): (r: int)
    requires from <= |themes|
    ensures r == -1 || from <= r < |themes|
    ensures r >= 0 ==> Equals(themes[r], name, ignoreCase)
    ensures r >= 0 ==> forall k :: from <= k < r ==> !Equals(themes[k], name, ignoreCase)
    ensures r == -1 ==> forall k :: from <= k < |themes| ==> !Equals(themes[k], name, ignoreCase)
    decreases |themes| - from
  {
    if from == |themes| then -1
    else if Equals(themes[from], name, ignoreCase) then from
    else FirstTheme(themes, name, ignoreCase, from + 1)
  }

  /**
   * The index of the current theme: -1 when the setting is SKINDEFAULT (any
   * case), otherwise the first theme equal to the setting with its extension
   * removed, or -1 when there is none.
   */
  function ThemeIndex(setting: string, settingWithoutExtension: string, themes: seq<string>, ignoreCase: bool): (r: int)
    ensures -1 <= r < |themes|
    ensures r >= 0 ==> !EqualsNoCase(setting, "SKINDEFAULT") && Equals(themes[r], settingWithoutExtension, ignoreCase)
    ensures r >= 0 ==> forall k :: 0 <= k < r ==> !Equals(themes[k], settingWithoutExtension, ignoreCase)
    ensures r == -1 ==> EqualsNoCase(setting, "SKINDEFAULT")
                        || forall k :: 0 <= k < |themes| ==> !Equals(themes[k], settingWithoutExtension, ignoreCase)
  {
    if EqualsNoCase(setting, "SKINDEFAULT") then -1 else FirstTheme(themes, settingWithoutExtension, ignoreCase, 0)
  }

  /** The loop of the Skin.Theme handler that finds the current theme. */
  method CurrentThemeIndex(setting: string, settingWithoutExtension: string, themes: seq<string>, ignoreCase: bool)
    returns (index: int)
    ensures index == ThemeIndex(setting, settingWithoutExtension, themes, ignoreCase)
  {
    index := -1;
    if !EqualsNoCase(setting, "SKINDEFAULT") {
      var i := 0;
      while i < |themes|
        invariant 0 <= i <= |themes|
        invariant FirstTheme(themes, settingWithoutExtension, ignoreCase, i) == FirstTheme(themes, settingWithoutExtension, ignoreCase, 0)
      {
        if Equals(themes[i], settingWithoutExtension, ignoreCase) {
          index := i;
          break;
        }
        i := i + 1;
      }
    }
  }
}
