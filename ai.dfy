/** `aiToParams`: the AI tokens of an image, in the order background
    (removal, change prompt, generative fill), editing, drop shadow,
    generation, cropping. A drop shadow always brings its own `e-removedotbg`
    right before it, whatever the background section pushed. */
module AiEncoder {

  import opened Wrappers
  import opened Text
  import opened Fields
  import opened Config

  /* ---------------- background ---------------- */

  /** `bg.mode === "economy" ? "e-bgremove" : "e-removedotbg"` */
  function RemovalToken(bg: AiBackground): string
  {
    if bg.mode == Some("economy") then "e-bgremove" else "e-removedotbg"
  }

  /** `bg-genfill`, with `-prompt-<prompt>` when the prompt is non-empty, then its size and crop mode. */
  function GenFillTokens(g: GenerativeFill): seq<string>
  {
    ["bg-genfill" + (if TruthyStr(g.prompt) then "-prompt-" + g.prompt.value else "")]
    + EmitAll([
        Field("w", Truthy(g.width), ShowOr(g.width)),
        Field("h", Truthy(g.height), ShowOr(g.height)),
        Field("cm", Truthy(g.cropMode), ShowOr(g.cropMode))])
  }

  /** What the background section pushes after the removal token. */
  function BackgroundRest(bg: AiBackground): seq<string>
  {
    (if TruthyStr(bg.changePrompt) then ["e-changebg-prompt-" + bg.changePrompt.value] else [])
    + (if bg.generativeFill.Some? then GenFillTokens(bg.generativeFill.value) else [])
  }

  function AiBackgroundTokens(bg: AiBackground): seq<string>
  {
    (if bg.remove then [RemovalToken(bg)] else []) + BackgroundRest(bg)
  }

  /* ---------------- editing, drop shadow, generation ---------------- */

  function EditingTokens(e: Editing): seq<string>
  {
    (if TruthyStr(e.prompt) then ["e-edit-prompt-" + e.prompt.value] else [])
    + (if e.retouch then ["e-retouch"] else [])
    + (if e.upscale then ["e-upscale"] else [])
  }

  /** `<sep><value>` when the component is defined, nothing otherwise. */
  function Component(sep: string, v: Option<Val>): string
  {
    if v.Some? then sep + Show(v.value) else ""
  }

  /** Each component keeps its own separator: `-az-`, `_el-`, `_st-`. */
  function DropShadowToken(s: DropShadow): string
  {
    "e-dropshadow" + Component("-az-", s.azimuth) + Component("_el-", s.elevation) + Component("_st-", s.saturation)
  }

  /** `ai.shadowLighting?.dropShadow`: the removal and then the shadow. */
  function DropShadowTokens(sl: Option<ShadowLighting>): seq<string>
  {
    if sl.Some? && sl.value.dropShadow.Some? then ["e-removedotbg", DropShadowToken(sl.value.dropShadow.value)]
    else []
  }

  function GenerationTokens(g: Generation): seq<string>
  {
    (if TruthyStr(g.textPrompt) then ["e-edit-prompt-" + g.textPrompt.value] else [])
    + (if g.variation then ["e-genvar"] else [])
  }

  /* ---------------- cropping ---------------- */

  /** The focus a cropping type asks for: `auto`, `face`, or the named object. */
  function CropFocus(c: Cropping): seq<string>
  {
    (if c.kind == Smart then ["fo-auto"] else [])
    + (if c.kind == Face then ["fo-face"] else [])
    + (if c.kind == ObjectCrop && TruthyStr(c.objectName) then ["fo-" + c.objectName.value] else [])
  }

  /** Zoom whenever defined, width and height when truthy. */
  function CropSize(c: Cropping): seq<string>
  {
    EmitAll([
      Field("z", c.zoom.Some?, ShowOr(c.zoom)),
      Field("w", Truthy(c.width), ShowOr(c.width)),
      Field("h", Truthy(c.height), ShowOr(c.height))])
  }

  function CroppingTokens(c: Cropping): seq<string>
  {
    CropFocus(c) + CropSize(c)
  }

  /* ---------------- the encoder ---------------- */

  /** The tokens before the drop-shadow pair. */
  function AiHead(ai: AiMagic): seq<string>
  {
    (if ai.background.Some? then AiBackgroundTokens(ai.background.value) else [])
    + (if ai.editing.Some? then EditingTokens(ai.editing.value) else [])
  }

  function AiTail(ai: AiMagic): seq<string>
  {
    (if ai.generation.Some? then GenerationTokens(ai.generation.value) else [])
    + (if ai.cropping.Some? then CroppingTokens(ai.cropping.value) else [])
  }

  /** `aiToParams` */
  function AiTokens(ai: AiMagic): seq<string>
  {
    AiHead(ai) + DropShadowTokens(ai.shadowLighting) + AiTail(ai)
  }

  /* ---------------- lemmas ---------------- */

  /** The generative-fill tokens start with `b` or are size and crop mode, never `e`. */
  lemma GenFillNoEffect(g: GenerativeFill)
    ensures NoInitial(GenFillTokens(g), 'e')
  {
    var size := [
      Field("w", Truthy(g.width), ShowOr(g.width)),
      Field("h", Truthy(g.height), ShowOr(g.height)),
      Field("cm", Truthy(g.cropMode), ShowOr(g.cropMode))];
    EmitAllInitials(size, 'e');
    var head := "bg-genfill" + (if TruthyStr(g.prompt) then "-prompt-" + g.prompt.value else "");
    assert head[0] == 'b' by {
      assert head[..10] == "bg-genfill";
    }
    assert GenFillTokens(g) == [head] + EmitAll(size);
    NoInitialAppend([head], EmitAll(size), 'e');
  }

  /** Neither removal token is pushed after the removal slot. */
  lemma BackgroundRestNoRemoval(bg: AiBackground)
    ensures Count(BackgroundRest(bg), "e-bgremove") == 0
    ensures Count(BackgroundRest(bg), "e-removedotbg") == 0
  {
    var change := if TruthyStr(bg.changePrompt) then ["e-changebg-prompt-" + bg.changePrompt.value] else [];
    var fill := if bg.generativeFill.Some? then GenFillTokens(bg.generativeFill.value) else [];
    assert Count(fill, "e-bgremove") == 0 && Count(fill, "e-removedotbg") == 0 by {
      if bg.generativeFill.Some? {
        GenFillNoEffect(bg.generativeFill.value);
      }
      CountNone(fill, "e-bgremove");
      CountNone(fill, "e-removedotbg");
    }
    assert Count(change, "e-bgremove") == 0 && Count(change, "e-removedotbg") == 0 by {
      if change != [] {
        var t := "e-changebg-prompt-" + bg.changePrompt.value;
        assert t[2] == 'c';
        assert t != "e-bgremove" && t != "e-removedotbg";
        assert change == [t];
      }
    }
    assert BackgroundRest(bg) == change + fill;
    CountAppend(change, fill, "e-bgremove");
    CountAppend(change, fill, "e-removedotbg");
  }

  /** `remove` pushes exactly one of `e-bgremove` (mode `economy`) and
      `e-removedotbg` (any other mode) first; without it the background section
      pushes neither. */
  lemma RemovalExactlyOne(bg: AiBackground)
    ensures bg.remove ==> AiBackgroundTokens(bg)[0] == RemovalToken(bg)
    ensures Count(AiBackgroundTokens(bg), "e-bgremove") + Count(AiBackgroundTokens(bg), "e-removedotbg")
      == (if bg.remove then 1 else 0)
    ensures Count(AiBackgroundTokens(bg), "e-bgremove") == 1 <==> bg.remove && bg.mode == Some("economy")
  {
    BackgroundRestNoRemoval(bg);
    var head := if bg.remove then [RemovalToken(bg)] else [];
    CountAppend(head, BackgroundRest(bg), "e-bgremove");
    CountAppend(head, BackgroundRest(bg), "e-removedotbg");
    assert "e-bgremove" != "e-removedotbg" by {
      assert "e-bgremove"[2] != "e-removedotbg"[2];
    }
  }

  /** A drop shadow is pushed right after its own `e-removedotbg`. */
  lemma DropShadowAfterRemoval(ai: AiMagic)
    requires ai.shadowLighting.Some? && ai.shadowLighting.value.dropShadow.Some?
    ensures var r := AiTokens(ai);
      var i := |AiHead(ai)|;
      i + 1 < |r| && r[i] == "e-removedotbg" &&
      r[i + 1] == DropShadowToken(ai.shadowLighting.value.dropShadow.value) &&
      StartsWith(r[i + 1], "e-dropshadow")
  {
    var t := DropShadowToken(ai.shadowLighting.value.dropShadow.value);
    assert t[..|"e-dropshadow"|] == "e-dropshadow";
  }

  /** The separators belong to the components: with no azimuth the token goes
      straight to `_el-` or `_st-`. */
  lemma DropShadowSeparators(s: DropShadow)
    ensures s.azimuth.None? && s.elevation.None? && s.saturation.None? ==> DropShadowToken(s) == "e-dropshadow"
    ensures s.azimuth.Some? ==> StartsWith(DropShadowToken(s), "e-dropshadow-az-" + Show(s.azimuth.value))
    ensures s.azimuth.None? && s.elevation.Some? ==>
      StartsWith(DropShadowToken(s), "e-dropshadow_el-" + Show(s.elevation.value))
    ensures s.azimuth.None? && s.elevation.None? && s.saturation.Some? ==>
      DropShadowToken(s) == "e-dropshadow_st-" + Show(s.saturation.value)
    ensures s.azimuth.Some? && s.elevation.Some? ==>
      StartsWith(DropShadowToken(s), "e-dropshadow-az-" + Show(s.azimuth.value) + "_el-" + Show(s.elevation.value))
    ensures s.azimuth.Some? && s.elevation.Some? && s.saturation.Some? ==>
      DropShadowToken(s) == "e-dropshadow-az-" + Show(s.azimuth.value) + "_el-" + Show(s.elevation.value)
        + "_st-" + Show(s.saturation.value)
  {
    var az := Component("-az-", s.azimuth);
    var el := Component("_el-", s.elevation);
    var st := Component("_st-", s.saturation);
    assert DropShadowToken(s) == "e-dropshadow" + az + el + st;
    if s.azimuth.Some? {
      var p := "e-dropshadow-az-" + Show(s.azimuth.value);
      assert "e-dropshadow" + az == p;
      assert (p + el + st)[..|p|] == p;
      if s.elevation.Some? {
        var q := p + "_el-" + Show(s.elevation.value);
        assert "e-dropshadow" + az + el == q;
        assert (q + st)[..|q|] == q;
      }
    } else if s.elevation.Some? {
      var p := "e-dropshadow_el-" + Show(s.elevation.value);
      assert "e-dropshadow" + az + el == p;
      assert (p + st)[..|p|] == p;
    }
  }

  /** Cropping pushes at most one focus token, first: `fo-auto` for smart,
      `fo-face` for face, `fo-<object>` for a named object. */
  lemma CroppingFocus(c: Cropping)
    ensures CountPrefixed(CroppingTokens(c), "fo-") ==
      (if c.kind == Smart || c.kind == Face || (c.kind == ObjectCrop && TruthyStr(c.objectName)) then 1 else 0)
    ensures c.kind == Smart ==> CroppingTokens(c)[0] == "fo-auto"
    ensures c.kind == Face ==> CroppingTokens(c)[0] == "fo-face"
    ensures c.kind == ObjectCrop && TruthyStr(c.objectName) ==> CroppingTokens(c)[0] == "fo-" + c.objectName.value
  {
    EmitAllInitials([
      Field("z", c.zoom.Some?, ShowOr(c.zoom)),
      Field("w", Truthy(c.width), ShowOr(c.width)),
      Field("h", Truthy(c.height), ShowOr(c.height))], 'f');
    CountPrefixedNone(CropSize(c), "fo-");
    CountPrefixedAppend(CropFocus(c), CropSize(c), "fo-");
    var f := CropFocus(c);
    if c.kind == Smart {
      assert f == ["fo-auto"];
      assert StartsWith("fo-auto", "fo-");
    } else if c.kind == Face {
      assert f == ["fo-face"];
      assert StartsWith("fo-face", "fo-");
    } else if c.kind == ObjectCrop && TruthyStr(c.objectName) {
      assert f == ["fo-" + c.objectName.value];
      assert ("fo-" + c.objectName.value)[..3] == "fo-";
    } else {
      assert f == [];
    }
  }

}
