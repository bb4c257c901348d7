/** What each category encoder can push: the first characters and the keys of
    its tokens. These are the facts `buildTrString` needs to tell the
    categories apart in the joined list (an overlay group is the only token
    that starts with `l`, audio tokens are the only `ac`/`vc` tokens, and no
    video category pushes an `e-` effect). */
module CategoryKeys {

  import opened Wrappers
  import opened Text
  import opened Numbers
  import opened Fields
  import opened Config
  import opened BasicsEncoder
  import opened EnhancementsEncoder
  import opened AiEncoder
  import opened OverlaysEncoder
  import opened AudioEncoder

  /* ---------------- image categories ---------------- */

  /** Image basics tokens start with the first letter of their key. */
  lemma ImageBasicsInitials(b: ImageBasics)
    ensures InitialsIn(BasicsTokens(b), "acdfhwxyz")
  {
    var fs := ImageBasicsFields(b);
    forall i | 0 <= i < |fs| ensures |fs[i].key| > 0 && fs[i].key[0] in "acdfhwxyz" {
      assert fs[i] == ImageBasicsField(b, i);
    }
    EmitAllInitialsIn(fs, "acdfhwxyz");
  }

  /** A key outside the basics table is never pushed by the basics. */
  lemma ImageBasicsKeysFrom(b: ImageBasics, key: string)
    requires key !in ImageBasicsKeys
    ensures key !in Keys(BasicsTokens(b))
  {
    ImageBasicsTable(b);
    EmitAllKeysWithin(ImageBasicsFields(b));
  }

  lemma FilterInitials(e: ImageEnhancements)
    ensures InitialsIn(EmitAll(FilterFields(e)), "be")
  {
    var fs := FilterFields(e);
    forall i | 0 <= i < |fs| ensures |fs[i].key| > 0 && fs[i].key[0] in "be" {
      assert fs[i] == FilterField(e, i);
    }
    EmitAllInitialsIn(fs, "be");
  }

  lemma BlurredInitials(before: seq<string>, bg: Background)
    ensures InitialsIn(BlurredTokens(before, bg), "bcehw")
  {
    if bg.kind == Blurred {
      var t := BlurredToken(bg);
      assert t[0] == 'b' by {
        BlurredTokenShape(bg);
        assert t[..3] == "bg-";
      }
      assert "cm-" + "pad_resize" == "cm-pad_resize";
      assert BlurredTokens(before, bg) == CropModeDefault(before, "pad_resize") + [t];
    }
  }

  lemma SolidColourInitials(bg: Background)
    ensures InitialsIn(SolidColourTokens(bg), "bcehw")
  {
    if SolidColourTokens(bg) != [] {
      var t := "bg-" + StripHash(bg.color.value);
      assert t[0] == 'b';
      assert SolidColourTokens(bg) == [t];
    }
  }

  lemma DominantInitials(before: seq<string>, bg: Background)
    ensures InitialsIn(DominantTokens(before, bg), "bcehw")
  {
    assert "cm-" + "pad_extract" == "cm-pad_extract";
  }

  lemma SolidBrightnessInitials(bg: Background)
    ensures InitialsIn(SolidBrightnessTokens(bg), "bcehw")
  {
    if SolidBrightnessTokens(bg) != [] {
      var t := "e-brightness-" + IntToString(bg.brightness.value);
      assert t[0] == 'e';
      assert SolidBrightnessTokens(bg) == [t];
    }
  }

  /** Every background push starts with `b`, `c`, `e`, `h` or `w`. */
  lemma BackgroundInitials(prior: seq<string>, bg: Background)
    ensures InitialsIn(BackgroundTokens(prior, bg), "bcehw")
  {
    var size := SizeTokens(bg);
    EmitAllInitialsIn([Field("w", Truthy(bg.width), ShowOr(bg.width)), Field("h", Truthy(bg.height), ShowOr(bg.height))], "bcehw");
    var blurred := BlurredTokens(prior + size, bg);
    var solid := SolidColourTokens(bg);
    var dominant := DominantTokens(prior + size + blurred + solid, bg);
    var bright := SolidBrightnessTokens(bg);
    BlurredInitials(prior + size, bg);
    SolidColourInitials(bg);
    DominantInitials(prior + size + blurred + solid, bg);
    SolidBrightnessInitials(bg);
    assert BackgroundTokens(prior, bg) == size + blurred + solid + dominant + bright;
    InitialsAppend(size, blurred, "bcehw");
    InitialsAppend(size + blurred, solid, "bcehw");
    InitialsAppend(size + blurred + solid, dominant, "bcehw");
    InitialsAppend(size + blurred + solid + dominant, bright, "bcehw");
  }

  /** Image enhancement tokens start with `b`, `c`, `e`, `h` or `w`. */
  lemma EnhancementsInitials(e: ImageEnhancements)
    ensures InitialsIn(EnhancementsTokens(e), "bcehw")
  {
    var filters := EmitAll(FilterFields(e));
    FilterInitials(e);
    InitialsWiden(filters, "be", "bcehw");
    InitialsAppend(filters, FlagTokens(e), "bcehw");
    InitialsAppend(filters + FlagTokens(e), ShadowTokens(e.shadow), "bcehw");
    var lead := LeadingTokens(e);
    var bgt := if e.background.Some? then BackgroundTokens(lead, e.background.value) else [];
    if e.background.Some? {
      BackgroundInitials(lead, e.background.value);
    }
    InitialsAppend(lead, bgt, "bcehw");
    InitialsAppend(lead + bgt, GradientTokens(e.gradient), "bcehw");
  }

  lemma AiBackgroundInitials(bg: AiBackground)
    ensures InitialsIn(AiBackgroundTokens(bg), "bcehw")
  {
    if bg.generativeFill.Some? {
      var g := bg.generativeFill.value;
      var size := [
        Field("w", Truthy(g.width), ShowOr(g.width)),
        Field("h", Truthy(g.height), ShowOr(g.height)),
        Field("cm", Truthy(g.cropMode), ShowOr(g.cropMode))];
      EmitAllInitialsIn(size, "bcehw");
      var head := "bg-genfill" + (if TruthyStr(g.prompt) then "-prompt-" + g.prompt.value else "");
      assert head[0] == 'b';
      InitialsAppend([head], EmitAll(size), "bcehw");
    }
    var removal := if bg.remove then [RemovalToken(bg)] else [];
    var change := if TruthyStr(bg.changePrompt) then ["e-changebg-prompt-" + bg.changePrompt.value] else [];
    var fill := if bg.generativeFill.Some? then GenFillTokens(bg.generativeFill.value) else [];
    assert InitialsIn(removal, "bcehw") && InitialsIn(change, "bcehw");
    InitialsAppend(change, fill, "bcehw");
    InitialsAppend(removal, change + fill, "bcehw");
    assert AiBackgroundTokens(bg) == removal + (change + fill);
  }

  lemma CroppingInitials(c: Cropping)
    ensures InitialsIn(CroppingTokens(c), "fhwz")
  {
    EmitAllInitialsIn([
      Field("z", c.zoom.Some?, ShowOr(c.zoom)),
      Field("w", Truthy(c.width), ShowOr(c.width)),
      Field("h", Truthy(c.height), ShowOr(c.height))], "fhwz");
    var f := CropFocus(c);
    assert InitialsIn(f, "fhwz");
    InitialsAppend(f, CropSize(c), "fhwz");
  }

  lemma EditingInitials(e: Editing)
    ensures InitialsIn(EditingTokens(e), "e")
  {
    var prompt := if TruthyStr(e.prompt) then ["e-edit-prompt-" + e.prompt.value] else [];
    var retouch := if e.retouch then ["e-retouch"] else [];
    var upscale := if e.upscale then ["e-upscale"] else [];
    assert InitialsIn(prompt, "e") && InitialsIn(retouch, "e") && InitialsIn(upscale, "e");
    InitialsAppend(prompt, retouch, "e");
    InitialsAppend(prompt + retouch, upscale, "e");
  }

  lemma GenerationInitials(g: Generation)
    ensures InitialsIn(GenerationTokens(g), "e")
  {
    var prompt := if TruthyStr(g.textPrompt) then ["e-edit-prompt-" + g.textPrompt.value] else [];
    var variation := if g.variation then ["e-genvar"] else [];
    assert InitialsIn(prompt, "e") && InitialsIn(variation, "e");
    InitialsAppend(prompt, variation, "e");
  }

  lemma DropShadowInitials(sl: Option<ShadowLighting>)
    ensures InitialsIn(DropShadowTokens(sl), "e")
  {
    if sl.Some? && sl.value.dropShadow.Some? {
      var s := sl.value.dropShadow.value;
      var t := DropShadowToken(s);
      assert |t| > 0 && t[0] == 'e' by {
        var rest := Component("-az-", s.azimuth) + Component("_el-", s.elevation) + Component("_st-", s.saturation);
        assert t == "e-dropshadow" + rest;
        assert ("e-dropshadow" + rest)[0] == "e-dropshadow"[0];
      }
      var r := DropShadowTokens(sl);
      assert r == ["e-removedotbg", t];
    }
  }

  lemma AiHeadInitials(ai: AiMagic)
    ensures InitialsIn(AiHead(ai) + DropShadowTokens(ai.shadowLighting), "bcefhwz")
  {
    var cs := "bcefhwz";
    var bgt := if ai.background.Some? then AiBackgroundTokens(ai.background.value) else [];
    if ai.background.Some? {
      AiBackgroundInitials(ai.background.value);
      InitialsWiden(bgt, "bcehw", cs);
    }
    var edit := if ai.editing.Some? then EditingTokens(ai.editing.value) else [];
    if ai.editing.Some? {
      EditingInitials(ai.editing.value);
      InitialsWiden(edit, "e", cs);
    }
    InitialsAppend(bgt, edit, cs);
    var shadow := DropShadowTokens(ai.shadowLighting);
    DropShadowInitials(ai.shadowLighting);
    InitialsWiden(shadow, "e", cs);
    assert AiHead(ai) == bgt + edit;
    InitialsAppend(AiHead(ai), shadow, cs);
  }

  lemma AiTailInitials(ai: AiMagic)
    ensures InitialsIn(AiTail(ai), "bcefhwz")
  {
    var cs := "bcefhwz";
    var gen := if ai.generation.Some? then GenerationTokens(ai.generation.value) else [];
    if ai.generation.Some? {
      GenerationInitials(ai.generation.value);
      InitialsWiden(gen, "e", cs);
    }
    var crop := if ai.cropping.Some? then CroppingTokens(ai.cropping.value) else [];
    if ai.cropping.Some? {
      CroppingInitials(ai.cropping.value);
      InitialsWiden(crop, "fhwz", cs);
    }
    InitialsAppend(gen, crop, cs);
  }

  /** AI tokens start with `b`, `c`, `e`, `f`, `h`, `w` or `z`. */
  lemma AiInitials(ai: AiMagic)
    ensures InitialsIn(AiTokens(ai), "bcefhwz")
  {
    AiHeadInitials(ai);
    AiTailInitials(ai);
    InitialsAppend(AiHead(ai) + DropShadowTokens(ai.shadowLighting), AiTail(ai), "bcefhwz");
  }

  /** Every overlay group starts with `l`. */
  lemma {:induction false} OverlaysInitials(os: seq<ImageOverlay>)
    ensures InitialsIn(OverlaysTokens(os), "l")
    decreases |os|
  {
    if os != [] {
      var front, last := os[..|os| - 1], os[|os| - 1];
      OverlaysInitials(front);
      ImageGroupShape(last);
      var g := ImageGroup(last);
      if g != [] {
        assert g[0][0] == 'l';
      }
      assert InitialsIn(g, "l");
      InitialsAppend(OverlaysTokens(front), g, "l");
    }
  }

  /* ---------------- video categories ---------------- */

  /** A key outside the video basics table is never pushed by the video basics. */
  lemma VideoBasicsKeysFrom(b: VideoBasics, key: string)
    requires key !in VideoBasicsKeys
    ensures key !in Keys(VideoBasicsTokens(b))
  {
    VideoBasicsTable(b);
    EmitAllKeysWithin(VideoBasicsFields(b));
  }

  /** Video enhancements push trimming and thumbnail keys only. */
  lemma VideoEnhancementsKeysFrom(e: VideoEnhancements, key: string)
    requires key !in TrimmingKeys && key !in ["so", "w", "h", "ar", "cm", "c", "fo", "b", "bg", "r"]
    ensures key !in Keys(VideoEnhancementsTokens(e))
  {
    var trim := if e.trimming.Some? then EmitAll(TrimmingFields(e.trimming.value)) else [];
    var thumb := if e.thumbnail.Some? then EmitAll(ThumbnailFields(e.thumbnail.value)) else [];
    if e.trimming.Some? {
      TrimmingTable(e.trimming.value);
      EmitAllKeysWithin(TrimmingFields(e.trimming.value));
    }
    if e.thumbnail.Some? {
      var th := e.thumbnail.value;
      assert key !in ThumbnailKeys(th) by {
        assert ThumbnailKeys(th)[4] in ["cm", "c"];
      }
      ThumbnailKeysFrom(th, key);
    }
    KeysAppend(trim, thumb);
  }

  /** The first parameter of a known video layer is `l-image`, `l-video` or `l-text`. */
  lemma KnownVideoOpening(o: VideoOverlay)
    requires !o.layer.VideoUnknown?
    ensures var first := VideoOverlayParams(o)[0]; '-' in first && KeyOf(first) == "l"
  {
    var head := VideoLayerTokens(o.layer);
    assert VideoOverlayParams(o)[0] == head[0];
    var rest := VideoLayerType(o.layer);
    assert head[0] == "l" + "-" + rest;
    KeyOfDashed("l", rest);
    assert head[0][1] == '-';
  }

  /** Without a known layer, a group opens with its first placement token, or with `l-end`. */
  lemma UnknownVideoOpening(o: VideoOverlay)
    requires o.layer.VideoUnknown?
    ensures var first := VideoOverlayParams(o)[0];
      '-' in first && (KeyOf(first) == "l" || KeyOf(first) in PlacementKeys)
  {
    UnknownVideoOverlay(o);
    var placed := EmitAll(PlacementFields(o));
    var first := VideoOverlayParams(o)[0];
    if placed == [] {
      assert first == "l" + "-" + "end";
      KeyOfDashed("l", "end");
      assert first[1] == '-';
    } else {
      assert first == placed[0];
      PlacementTable(o);
      EmitAllTokens(PlacementFields(o));
      assert placed[0] in placed;
      var i :| 0 <= i < |PlacementKeys| && PlacementFields(o)[i].fires && first == Token(PlacementFields(o)[i]);
      var f := PlacementFields(o)[i];
      KeyOfDashed(f.key, f.value);
      assert f.key == PlacementKeys[i];
      assert first[|f.key|] == '-';
    }
  }

  /** A video overlay group's key is `l` or, for an unknown type, a placement key. */
  lemma VideoGroupKey(o: VideoOverlay)
    ensures KeyOf(VideoGroup(o)) == "l" || KeyOf(VideoGroup(o)) in PlacementKeys
  {
    var p := VideoOverlayParams(o);
    JoinEnds(",", p);
    if o.layer.VideoUnknown? {
      UnknownVideoOpening(o);
    } else {
      KnownVideoOpening(o);
    }
    KeyOfPrefix(Join(",", p), p[0]);
  }

  /** Video overlay groups carry the key `l` or a placement key, nothing else. */
  lemma VideoOverlaysKeysFrom(os: seq<VideoOverlay>, key: string)
    requires key != "l" && key !in PlacementKeys
    ensures key !in Keys(VideoOverlaysTokens(os))
  {
    VideoOverlaysOnePerOverlay(os);
    forall j | 0 <= j < |os| ensures Keys(VideoOverlaysTokens(os))[j] != key {
      VideoGroupKey(os[j]);
    }
  }

}
