/** `enhancementsToParams` and `videoEnhancementsToParams`.

    The image encoder pushes, in this order: the filter tokens, the two flags,
    one compound `e-shadow-…` token, the background tokens (its own size, a
    `cm-` default, the background itself, a brightness) and one compound
    `e-gradient-…` token. A `cm-` default is pushed only when no token already
    in the encoder's own list starts with `cm-`; the lemmas below show that no
    earlier token can, so the default is always pushed.

    The video encoder pushes the trimming offsets and then the thumbnail
    fields; the thumbnail crop mode goes out as `cm-` for `extract` and
    `pad_resize` and as `c-` for any other value. */
module EnhancementsEncoder {

  import opened Wrappers
  import opened Text
  import opened Numbers
  import opened Fields
  import opened Config

  /* ---------------- filters and flags ---------------- */

  const FilterKeys: seq<string> :=
    ["bl", "e-sharpen", "e-contrast", "e-brightness", "e-saturation", "e-gamma", "e-hue", "e-vibrance"]

  /** The i-th filter push: blur and sharpen when truthy, the others when defined. */
  function FilterField(e: ImageEnhancements, i: nat): Field
    requires i < |FilterKeys|
  {
    match i
    case 0 => Field("bl", Truthy(e.blur), ShowOr(e.blur))
    case 1 => Field("e-sharpen", Truthy(e.sharpen), ShowOr(e.sharpen))
    case 2 => Field("e-contrast", e.contrast.Some?, ShowOr(e.contrast))
    case 3 => Field("e-brightness", e.brightness.Some?, ShowOr(e.brightness))
    case 4 => Field("e-saturation", e.saturation.Some?, ShowOr(e.saturation))
    case 5 => Field("e-gamma", e.gamma.Some?, ShowOr(e.gamma))
    case 6 => Field("e-hue", e.hue.Some?, ShowOr(e.hue))
    case _ => Field("e-vibrance", e.vibrance.Some?, ShowOr(e.vibrance))
  }

  function FilterFields(e: ImageEnhancements): seq<Field>
  {
    seq(|FilterKeys|, i requires 0 <= i < |FilterKeys| => FilterField(e, i))
  }

  function FlagTokens(e: ImageEnhancements): seq<string>
  {
    (if e.grayscale then ["e-grayscale"] else []) + (if e.sepia then ["e-sepia"] else [])
  }

  /* ---------------- shadow ---------------- */

  const ShadowKeys: seq<string> := ["bl", "st", "x", "y"]

  /** The i-th shadow component: every one of them when defined; the offsets in `N` form. */
  function ShadowField(s: Shadow, i: nat): Field
    requires i < |ShadowKeys|
  {
    match i
    case 0 => Field("bl", s.blur.Some?, ShowOr(s.blur))
    case 1 => Field("st", s.saturation.Some?, ShowOr(s.saturation))
    case 2 => Field("x", s.offsetX.Some?, if s.offsetX.Some? then NSigned(s.offsetX.value) else "")
    case _ => Field("y", s.offsetY.Some?, if s.offsetY.Some? then NSigned(s.offsetY.value) else "")
  }

  function ShadowFields(s: Shadow): seq<Field>
  {
    seq(|ShadowKeys|, i requires 0 <= i < |ShadowKeys| => ShadowField(s, i))
  }

  function ShadowParts(s: Shadow): seq<string>
  {
    EmitAll(ShadowFields(s))
  }

  /** The `e-shadow-…` push: present only when some component is. */
  function ShadowTokens(shadow: Option<Shadow>): seq<string>
  {
    if shadow.None? || ShadowParts(shadow.value) == [] then []
    else ["e-shadow-" + Join("_", ShadowParts(shadow.value))]
  }

  /* ---------------- background ---------------- */

  /** The background's own `w-` and `h-`, each only when truthy. */
  function SizeTokens(bg: Background): seq<string>
  {
    EmitAll([Field("w", Truthy(bg.width), ShowOr(bg.width)), Field("h", Truthy(bg.height), ShowOr(bg.height))])
  }

  /** `parts.some(part => part.startsWith(p))` */
  predicate SomeStartsWith(parts: seq<string>, p: string)
  {
    exists i :: 0 <= i < |parts| && StartsWith(parts[i], p)
  }

  /** The crop-mode default: pushed unless the list already holds a `cm-` token. */
  function CropModeDefault(parts: seq<string>, mode: string): seq<string>
  {
    if SomeStartsWith(parts, "cm-") then [] else ["cm-" + mode]
  }

  /** `bg.blurIntensity || "auto"` */
  function BlurIntensity(bg: Background): string
  {
    if Truthy(bg.blurIntensity) then Show(bg.blurIntensity.value) else "auto"
  }

  function BlurredToken(bg: Background): string
  {
    Join("_", ["bg-blurred", BlurIntensity(bg)] + (if bg.brightness.Some? then [NSigned(bg.brightness.value)] else []))
  }

  /** The blurred push: `cm-pad_resize` unless `before` already holds a crop mode, then the blurred token. */
  function BlurredTokens(before: seq<string>, bg: Background): seq<string>
  {
    if bg.kind == Blurred then CropModeDefault(before, "pad_resize") + [BlurredToken(bg)] else []
  }

  /** The solid colour push: `bg-<colour>` without its `#`, when the colour is truthy. */
  function SolidColourTokens(bg: Background): seq<string>
  {
    if bg.kind == SolidBackground && TruthyStr(bg.color) then ["bg-" + StripHash(bg.color.value)] else []
  }

  /** The dominant push: `cm-pad_extract` unless `before` already holds a crop mode, then `bg-dominant`. */
  function DominantTokens(before: seq<string>, bg: Background): seq<string>
  {
    if bg.kind == Dominant then CropModeDefault(before, "pad_extract") + ["bg-dominant"] else []
  }

  /** The solid brightness push, in plain (not `N`) form. */
  function SolidBrightnessTokens(bg: Background): seq<string>
  {
    if bg.kind == SolidBackground && bg.brightness.Some? then ["e-brightness-" + IntToString(bg.brightness.value)] else []
  }

  /** The background pushes, given the tokens `prior` already in the encoder's list. */
  function BackgroundTokens(prior: seq<string>, bg: Background): (r: seq<string>)
    ensures |SizeTokens(bg)| <= |r| && r[..|SizeTokens(bg)|] == SizeTokens(bg)
  {
    var size := SizeTokens(bg);
    var blurred := BlurredTokens(prior + size, bg);
    var solid := SolidColourTokens(bg);
    var dominant := DominantTokens(prior + size + blurred + solid, bg);
    var bright := SolidBrightnessTokens(bg);
    assert (size + blurred + solid + dominant + bright)[..|size|] == size;
    size + blurred + solid + dominant + bright
  }

  /* ---------------- gradient ---------------- */

  const GradientKeys: seq<string> := ["ld", "from", "to", "sp"]

  /** The i-th gradient component: direction and stop point when defined, the colours when truthy and without their `#`. */
  function GradientField(g: Gradient, i: nat): Field
    requires i < |GradientKeys|
  {
    match i
    case 0 => Field("ld", g.direction.Some?, ShowOr(g.direction))
    case 1 => Field("from", TruthyStr(g.fromColor), StripHash(StrOr(g.fromColor)))
    case 2 => Field("to", TruthyStr(g.toColor), StripHash(StrOr(g.toColor)))
    case _ => Field("sp", g.stopPoint.Some?, ShowOr(g.stopPoint))
  }

  function GradientFields(g: Gradient): seq<Field>
  {
    seq(|GradientKeys|, i requires 0 <= i < |GradientKeys| => GradientField(g, i))
  }

  function GradientParts(g: Gradient): seq<string>
  {
    EmitAll(GradientFields(g))
  }

  /** The enhancement's `e-gradient-…` push: present only when some component is. */
  function GradientTokens(gradient: Option<Gradient>): seq<string>
  {
    if gradient.None? || GradientParts(gradient.value) == [] then []
    else ["e-gradient-" + Join("_", GradientParts(gradient.value))]
  }

  /* ---------------- the image encoder ---------------- */

  /** Everything the encoder pushes before the background. */
  function LeadingTokens(e: ImageEnhancements): seq<string>
  {
    EmitAll(FilterFields(e)) + FlagTokens(e) + ShadowTokens(e.shadow)
  }

  /** `enhancementsToParams` */
  function EnhancementsTokens(e: ImageEnhancements): seq<string>
  {
    var lead := LeadingTokens(e);
    lead
    + (if e.background.Some? then BackgroundTokens(lead, e.background.value) else [])
    + GradientTokens(e.gradient)
  }

  /* ---------------- the video encoder ---------------- */

  const TrimmingKeys: seq<string> := ["so", "eo", "du"]

  function TrimmingField(t: Trimming, i: nat): Field
    requires i < |TrimmingKeys|
  {
    match i
    case 0 => Field("so", t.startOffset.Some?, ShowOr(t.startOffset))
    case 1 => Field("eo", t.endOffset.Some?, ShowOr(t.endOffset))
    case _ => Field("du", t.duration.Some?, ShowOr(t.duration))
  }

  function TrimmingFields(t: Trimming): seq<Field>
  {
    seq(|TrimmingKeys|, i requires 0 <= i < |TrimmingKeys| => TrimmingField(t, i))
  }

  /** The crop modes that keep the `cm-` key in a thumbnail. */
  predicate PadCropMode(mode: string)
  {
    mode == "extract" || mode == "pad_resize"
  }

  function CropKey(th: Thumbnail): string
  {
    if th.cropMode.Some? && PadCropMode(th.cropMode.value) then "cm" else "c"
  }

  function ThumbnailKeys(th: Thumbnail): seq<string>
  {
    ["so", "w", "h", "ar", CropKey(th), "fo", "b", "bg", "r"]
  }

  /** The border as `<width>_<color>`. */
  function BorderValue(border: Option<Border>): string
  {
    if border.Some? then Show(border.value.width) + "_" + Show(border.value.color) else ""
  }

  /** The i-th thumbnail push: time and radius when defined, the border when
      present, the others when truthy. */
  function ThumbnailField(th: Thumbnail, i: nat): Field
    requires i < 9
  {
    match i
    case 0 => Field("so", th.time.Some?, ShowOr(th.time))
    case 1 => Field("w", Truthy(th.width), ShowOr(th.width))
    case 2 => Field("h", Truthy(th.height), ShowOr(th.height))
    case 3 => Field("ar", Truthy(th.aspectRatio), ShowOr(th.aspectRatio))
    case 4 => Field(CropKey(th), TruthyStr(th.cropMode), StrOr(th.cropMode))
    case 5 => Field("fo", Truthy(th.focus), ShowOr(th.focus))
    case 6 => Field("b", th.border.Some?, BorderValue(th.border))
    case 7 => Field("bg", Truthy(th.bg), ShowOr(th.bg))
    case _ => Field("r", th.radius.Some?, ShowOr(th.radius))
  }

  function ThumbnailFields(th: Thumbnail): seq<Field>
  {
    seq(9, i requires 0 <= i < 9 => ThumbnailField(th, i))
  }

  /** `videoEnhancementsToParams` */
  function VideoEnhancementsTokens(e: VideoEnhancements): seq<string>
  {
    (if e.trimming.Some? then EmitAll(TrimmingFields(e.trimming.value)) else [])
    + (if e.thumbnail.Some? then EmitAll(ThumbnailFields(e.thumbnail.value)) else [])
  }

  /* ---------------- lemmas: the crop-mode defaults ---------------- */

  /** A list in which no token starts with `c` holds no `cm-` token. */
  lemma NoCropModeIn(ts: seq<string>)
    requires NoInitial(ts, 'c')
    ensures !SomeStartsWith(ts, "cm-")
    ensures CountPrefixed(ts, "cm-") == 0
  {
    CountPrefixedNone(ts, "cm-");
  }

  /** Filters, flags and the shadow never start with `c`. */
  lemma LeadingInitials(e: ImageEnhancements)
    ensures NoInitial(LeadingTokens(e), 'c')
  {
    EmitAllInitials(FilterFields(e), 'c');
    NoInitialAppend(EmitAll(FilterFields(e)), FlagTokens(e), 'c');
    NoInitialAppend(EmitAll(FilterFields(e)) + FlagTokens(e), ShadowTokens(e.shadow), 'c');
  }

  lemma SizeInitials(bg: Background)
    ensures NoInitial(SizeTokens(bg), 'c')
  {
    EmitAllInitials([Field("w", Truthy(bg.width), ShowOr(bg.width)), Field("h", Truthy(bg.height), ShowOr(bg.height))], 'c');
  }

  lemma GradientInitials(gradient: Option<Gradient>)
    ensures NoInitial(GradientTokens(gradient), 'c')
  {
  }

  /** One crop-mode token between two runs without any: it is the only `cm-` token, once. */
  lemma SingleCropMode(front: seq<string>, cm: string, tail: seq<string>)
    requires NoInitial(front, 'c') && NoInitial(tail, 'c') && StartsWith(cm, "cm-")
    ensures CountPrefixed(front + [cm] + tail, "cm-") == 1
    ensures Count(front + [cm] + tail, cm) == 1
  {
    NoCropModeIn(front);
    CountPrefixedAppend(front, [cm], "cm-");
    CountPrefixedAppend(front + [cm], tail, "cm-");
    CountPrefixedNone(tail, "cm-");
    CountNone(front, cm);
    CountNone(tail, cm);
    CountAppend(front, [cm], cm);
    CountAppend(front + [cm], tail, cm);
  }

  /** Nothing before the background's crop-mode default starts with `c`. */
  lemma LeadSizeNoInitial(e: ImageEnhancements, bg: Background)
    ensures NoInitial(LeadingTokens(e) + SizeTokens(bg), 'c')
  {
    LeadingInitials(e);
    SizeInitials(bg);
    NoInitialAppend(LeadingTokens(e), SizeTokens(bg), 'c');
  }

  /** A blurred background after tokens without a crop mode: size, `cm-pad_resize`, the blurred token. */
  lemma BlurredBackgroundTokens(prior: seq<string>, bg: Background)
    requires bg.kind == Blurred && NoInitial(prior + SizeTokens(bg), 'c')
    ensures BackgroundTokens(prior, bg) == SizeTokens(bg) + ["cm-pad_resize", BlurredToken(bg)]
  {
    var size := SizeTokens(bg);
    assert BlurredTokens(prior + size, bg) == ["cm-pad_resize", BlurredToken(bg)] by {
      NoCropModeIn(prior + size);
      assert "cm-" + "pad_resize" == "cm-pad_resize";
    }
    assert SolidColourTokens(bg) == [] && SolidBrightnessTokens(bg) == [];
    assert DominantTokens(prior + size + ["cm-pad_resize", BlurredToken(bg)], bg) == [];
  }

  /** Any other background type pushes only its own `w-` and `h-`. */
  lemma OtherBackgroundTokens(prior: seq<string>, bg: Background)
    requires bg.kind == OtherBackground
    ensures BackgroundTokens(prior, bg) == SizeTokens(bg)
  {
  }

  /** The five kinds of background push. */
  predicate BackgroundPrefixed(t: string)
  {
    StartsWith(t, "w-") || StartsWith(t, "h-") || StartsWith(t, "cm-") || StartsWith(t, "bg-")
    || StartsWith(t, "e-brightness-")
  }

  /** The background's size pushes are `w-` and `h-` tokens. */
  lemma SizePrefixed(bg: Background)
    ensures forall t :: t in SizeTokens(bg) ==> StartsWith(t, "w-") || StartsWith(t, "h-")
  {
    var w := "w-" + ShowOr(bg.width);
    var h := "h-" + ShowOr(bg.height);
    var fw := Field("w", Truthy(bg.width), ShowOr(bg.width));
    var fh := Field("h", Truthy(bg.height), ShowOr(bg.height));
    assert Token(fw) == w && Token(fh) == h;
    assert [fh][1..] == [];
    assert EmitAll([fh]) == (if fh.fires then [h] else []) + EmitAll([]);
    assert [fw, fh][1..] == [fh];
    assert SizeTokens(bg) == (if fw.fires then [w] else []) + EmitAll([fh]);
    StartsWithConcat("w-", ShowOr(bg.width));
    StartsWithConcat("h-", ShowOr(bg.height));
  }

  /** The blurred pushes are `cm-` and `bg-` tokens. */
  lemma BlurredPrefixed(before: seq<string>, bg: Background)
    ensures forall t :: t in BlurredTokens(before, bg) ==> BackgroundPrefixed(t)
  {
    if bg.kind == Blurred {
      var x := BlurredToken(bg);
      assert StartsWith(x, "bg-") by {
        BlurredTokenShape(bg);
        assert x[..3] == "bg-";
      }
      StartsWithConcat("cm-", "pad_resize");
      assert BlurredTokens(before, bg) == CropModeDefault(before, "pad_resize") + [x];
    }
  }

  /** The solid pushes are `bg-` and `e-brightness-` tokens. */
  lemma SolidPrefixed(bg: Background)
    ensures forall t :: t in SolidColourTokens(bg) ==> BackgroundPrefixed(t)
    ensures forall t :: t in SolidBrightnessTokens(bg) ==> BackgroundPrefixed(t)
  {
    if SolidColourTokens(bg) != [] {
      StartsWithConcat("bg-", StripHash(bg.color.value));
    }
    if SolidBrightnessTokens(bg) != [] {
      StartsWithConcat("e-brightness-", IntToString(bg.brightness.value));
    }
  }

  /** The dominant pushes are `cm-` and `bg-` tokens. */
  lemma DominantPrefixed(before: seq<string>, bg: Background)
    ensures forall t :: t in DominantTokens(before, bg) ==> BackgroundPrefixed(t)
  {
    StartsWithConcat("cm-", "pad_extract");
    StartsWithConcat("bg-", "dominant");
  }

  /** Every background push is a `w-`, `h-`, `cm-`, `bg-` or `e-brightness-` token. */
  lemma BackgroundPrefixes(prior: seq<string>, bg: Background)
    ensures forall t :: t in BackgroundTokens(prior, bg) ==> BackgroundPrefixed(t)
  {
    var size := SizeTokens(bg);
    var blurred := BlurredTokens(prior + size, bg);
    var solid := SolidColourTokens(bg);
    var dominant := DominantTokens(prior + size + blurred + solid, bg);
    var bright := SolidBrightnessTokens(bg);
    SizePrefixed(bg);
    BlurredPrefixed(prior + size, bg);
    SolidPrefixed(bg);
    DominantPrefixed(prior + size + blurred + solid, bg);
    assert BackgroundTokens(prior, bg) == size + blurred + solid + dominant + bright;
  }

  /** A solid background: size, then `bg-<colour>` with one `#` removed when
      the colour is truthy, then the brightness in plain form when defined. */
  lemma SolidBackgroundTokens(prior: seq<string>, bg: Background)
    requires bg.kind == SolidBackground
    ensures BackgroundTokens(prior, bg) == SizeTokens(bg)
      + (if TruthyStr(bg.color) then ["bg-" + StripHash(bg.color.value)] else [])
      + (if bg.brightness.Some? then ["e-brightness-" + IntToString(bg.brightness.value)] else [])
  {
  }

  /** A negative solid brightness keeps its minus sign: `-5` gives
      `e-brightness--5`, where the blurred token writes `N5`. */
  lemma SolidNegativeBrightness(prior: seq<string>, bg: Background)
    requires bg.kind == SolidBackground && bg.brightness == Some(-5)
    ensures "e-brightness--5" in BackgroundTokens(prior, bg)
  {
    SolidBackgroundTokens(prior, bg);
    assert IntToString(-5) == "-5";
    assert "e-brightness-" + "-5" == "e-brightness--5";
    var size := SizeTokens(bg);
    var colour := if TruthyStr(bg.color) then ["bg-" + StripHash(bg.color.value)] else [];
    InMiddle(size + colour, ["e-brightness--5"], [], "e-brightness--5");
    assert size + colour + ["e-brightness--5"] + [] == BackgroundTokens(prior, bg);
  }

  /** A dominant background after tokens without a crop mode: size, `cm-pad_extract`, `bg-dominant`. */
  lemma DominantBackgroundTokens(prior: seq<string>, bg: Background)
    requires bg.kind == Dominant && NoInitial(prior + SizeTokens(bg), 'c')
    ensures BackgroundTokens(prior, bg) == SizeTokens(bg) + ["cm-pad_extract", "bg-dominant"]
  {
    var size := SizeTokens(bg);
    assert BlurredTokens(prior + size, bg) == [] && SolidColourTokens(bg) == [];
    assert prior + size + [] + [] == prior + size;
    assert DominantTokens(prior + size, bg) == ["cm-pad_extract", "bg-dominant"] by {
      NoCropModeIn(prior + size);
      assert "cm-" + "pad_extract" == "cm-pad_extract";
    }
    assert SolidBrightnessTokens(bg) == [];
  }

  /** The shape `lead + size + [cm, t] + grad` puts `size` at `|lead|` and `cm`, `t` right after it. */
  lemma SplicedAt(lead: seq<string>, size: seq<string>, cm: string, t: string, grad: seq<string>)
    ensures var r := lead + (size + [cm, t]) + grad;
      var k := |lead| + |size|;
      k + 1 < |r| && r[|lead|..k] == size && r[k] == cm && r[k + 1] == t &&
      r == (lead + size) + [cm] + ([t] + grad)
  {
  }

  /** A background whose tokens are its size, a crop mode `cm` and a token `t`
      not starting with `c`: `cm` sits right after the size, followed by `t`,
      and is the only `cm-` token of the list. */
  lemma SplicedDefault(e: ImageEnhancements, cm: string, t: string)
    requires e.background.Some?
    requires BackgroundTokens(LeadingTokens(e), e.background.value) == SizeTokens(e.background.value) + [cm, t]
    requires StartsWith(cm, "cm-") && t != "" && t[0] != 'c'
    ensures var r := EnhancementsTokens(e);
      var bg := e.background.value;
      var k := |LeadingTokens(e)| + |SizeTokens(bg)|;
      k + 1 < |r| && r[|LeadingTokens(e)|..k] == SizeTokens(bg) &&
      r[k] == cm && r[k + 1] == t &&
      CountPrefixed(r, "cm-") == 1 && Count(r, cm) == 1
  {
    var bg := e.background.value;
    var lead := LeadingTokens(e);
    var grad := GradientTokens(e.gradient);
    var size := SizeTokens(bg);
    EnhancementsSplit(e);
    SplicedAt(lead, size, cm, t, grad);
    SplicedCount(e, bg, cm, t);
  }

  /** With a background, the list is the leading tokens, the background's, then the gradient's. */
  lemma EnhancementsSplit(e: ImageEnhancements)
    requires e.background.Some?
    ensures EnhancementsTokens(e) ==
      LeadingTokens(e) + BackgroundTokens(LeadingTokens(e), e.background.value) + GradientTokens(e.gradient)
  {
  }

  /** The crop mode spliced after the size is the only `cm-` token. */
  lemma SplicedCount(e: ImageEnhancements, bg: Background, cm: string, t: string)
    requires StartsWith(cm, "cm-") && t != "" && t[0] != 'c'
    ensures var front := LeadingTokens(e) + SizeTokens(bg);
      var tail := [t] + GradientTokens(e.gradient);
      CountPrefixed(front + [cm] + tail, "cm-") == 1 && Count(front + [cm] + tail, cm) == 1
  {
    var grad := GradientTokens(e.gradient);
    LeadSizeNoInitial(e, bg);
    assert NoInitial([t] + grad, 'c') by {
      GradientInitials(e.gradient);
      NoInitialAppend([t], grad, 'c');
    }
    SingleCropMode(LeadingTokens(e) + SizeTokens(bg), cm, [t] + grad);
  }

  /** A blurred background: its own `w-`/`h-` first, then exactly one
      `cm-pad_resize` (the default always fires), then the blurred token;
      no other `cm-` token anywhere. */
  lemma BlurredBackgroundDefaults(e: ImageEnhancements)
    requires e.background.Some? && e.background.value.kind == Blurred
    ensures var r := EnhancementsTokens(e);
      var bg := e.background.value;
      var k := |LeadingTokens(e)| + |SizeTokens(bg)|;
      k + 1 < |r| && r[|LeadingTokens(e)|..k] == SizeTokens(bg) &&
      r[k] == "cm-pad_resize" && r[k + 1] == BlurredToken(bg) &&
      CountPrefixed(r, "cm-") == 1 && Count(r, "cm-pad_resize") == 1
  {
    var bg := e.background.value;
    assert BackgroundTokens(LeadingTokens(e), bg) == SizeTokens(bg) + ["cm-pad_resize", BlurredToken(bg)] by {
      LeadSizeNoInitial(e, bg);
      BlurredBackgroundTokens(LeadingTokens(e), bg);
    }
    assert BlurredToken(bg) != "" && BlurredToken(bg)[0] == 'b' by {
      BlurredTokenShape(bg);
      assert BlurredToken(bg)[..3] == "bg-";
    }
    assert StartsWith("cm-pad_resize", "cm-");
    SplicedDefault(e, "cm-pad_resize", BlurredToken(bg));
  }

  /** A dominant background: its own `w-`/`h-` first, then exactly one
      `cm-pad_extract`, then `bg-dominant`; no other `cm-` token anywhere. */
  lemma DominantBackgroundDefaults(e: ImageEnhancements)
    requires e.background.Some? && e.background.value.kind == Dominant
    ensures var r := EnhancementsTokens(e);
      var bg := e.background.value;
      var k := |LeadingTokens(e)| + |SizeTokens(bg)|;
      k + 1 < |r| && r[|LeadingTokens(e)|..k] == SizeTokens(bg) &&
      r[k] == "cm-pad_extract" && r[k + 1] == "bg-dominant" &&
      CountPrefixed(r, "cm-") == 1 && Count(r, "cm-pad_extract") == 1
  {
    var bg := e.background.value;
    assert BackgroundTokens(LeadingTokens(e), bg) == SizeTokens(bg) + ["cm-pad_extract", "bg-dominant"] by {
      LeadSizeNoInitial(e, bg);
      DominantBackgroundTokens(LeadingTokens(e), bg);
    }
    assert StartsWith("cm-pad_extract", "cm-");
    SplicedDefault(e, "cm-pad_extract", "bg-dominant");
  }

  /** Any other background, or none, adds no `cm-` token. */
  lemma OtherBackgroundNoInitial(prior: seq<string>, bg: Background)
    requires bg.kind !in {Blurred, Dominant}
    ensures NoInitial(BackgroundTokens(prior, bg), 'c')
  {
    SizeInitials(bg);
    var solid := SolidColourTokens(bg);
    var bright := SolidBrightnessTokens(bg);
    assert NoInitial(solid, 'c') by {
      if solid != [] {
        var t := "bg-" + StripHash(bg.color.value);
        assert t[0] == 'b';
        assert solid == [t];
      }
    }
    assert NoInitial(bright, 'c') by {
      if bright != [] {
        var t := "e-brightness-" + IntToString(bg.brightness.value);
        assert t[0] == 'e';
        assert bright == [t];
      }
    }
    var size := SizeTokens(bg);
    assert BlurredTokens(prior + size, bg) == [];
    assert DominantTokens(prior + size + solid, bg) == [];
    assert BackgroundTokens(prior, bg) == size + solid + bright;
    NoInitialAppend(size, solid, 'c');
    NoInitialAppend(size + solid, bright, 'c');
  }

  lemma OtherBackgroundNoCropMode(e: ImageEnhancements)
    requires e.background.None? || e.background.value.kind !in {Blurred, Dominant}
    ensures CountPrefixed(EnhancementsTokens(e), "cm-") == 0
  {
    LeadingInitials(e);
    GradientInitials(e.gradient);
    var lead := LeadingTokens(e);
    var bgt := if e.background.Some? then BackgroundTokens(lead, e.background.value) else [];
    if e.background.Some? {
      OtherBackgroundNoInitial(lead, e.background.value);
    }
    NoInitialAppend(lead, bgt, 'c');
    NoInitialAppend(lead + bgt, GradientTokens(e.gradient), 'c');
    assert EnhancementsTokens(e) == lead + bgt + GradientTokens(e.gradient);
    CountPrefixedNone(EnhancementsTokens(e), "cm-");
  }

  /** The blurred token: `bg-blurred_<intensity>`, intensity `auto` when unset
      or falsy, then `_<brightness>` in `N` form when a brightness is given. */
  lemma BlurredTokenShape(bg: Background)
    ensures bg.brightness.None? ==> BlurredToken(bg) == "bg-blurred_" + BlurIntensity(bg)
    ensures bg.brightness.Some? ==>
      BlurredToken(bg) == "bg-blurred_" + BlurIntensity(bg) + "_" + NSigned(bg.brightness.value) &&
      EndsWith(BlurredToken(bg), "_" + NSigned(bg.brightness.value)) &&
      ParseNSigned(NSigned(bg.brightness.value)) == bg.brightness.value
  {
    var head := "bg-blurred_" + BlurIntensity(bg);
    if bg.brightness.Some? {
      var b := NSigned(bg.brightness.value);
      var parts := ["bg-blurred", BlurIntensity(bg), b];
      assert ["bg-blurred", BlurIntensity(bg)] + [b] == parts;
      assert parts[1..][1..] == [b];
      assert Join("_", parts[1..]) == BlurIntensity(bg) + "_" + b;
      assert Join("_", parts) == "bg-blurred" + "_" + (BlurIntensity(bg) + "_" + b);
      assert BlurredToken(bg) == head + "_" + b;
      assert (head + "_" + b)[|head + "_" + b| - |"_" + b|..] == "_" + b;
      NSignedRoundTrip(bg.brightness.value);
    } else {
      var parts := ["bg-blurred", BlurIntensity(bg)];
      assert parts + [] == parts;
      assert parts[1..] == [BlurIntensity(bg)];
      assert Join("_", parts) == "bg-blurred" + "_" + BlurIntensity(bg);
      assert BlurredToken(bg) == head;
    }
  }

  /** An unset or falsy intensity reads `auto`. */
  lemma BlurredTokenAuto(bg: Background)
    requires !Truthy(bg.blurIntensity)
    ensures StartsWith(BlurredToken(bg), "bg-blurred_auto")
  {
    BlurredTokenShape(bg);
    assert "bg-blurred_" + "auto" == "bg-blurred_auto";
    var t := BlurredToken(bg);
    assert t[..|"bg-blurred_auto"|] == "bg-blurred_auto";
  }

  /* ---------------- lemmas: shadow and gradient ---------------- */

  lemma ShadowTable(s: Shadow)
    ensures FieldKeys(ShadowFields(s)) == ShadowKeys
    ensures DashFreeKeys(ShadowFields(s)) && Distinct(ShadowKeys)
  {
  }

  lemma ShadowKeyAt(s: Shadow, i: nat, key: string, fires: bool, value: string)
    requires i < |ShadowKeys| && ShadowField(s, i) == Field(key, fires, value)
    ensures key in Keys(ShadowParts(s)) <==> fires
    ensures fires ==> key + "-" + value in ShadowParts(s)
  {
    ShadowTable(s);
    EmitAllKeyAt(ShadowFields(s), i);
  }

  /** The shadow token exists exactly when some component is defined; its
      components keep the order bl, st, x, y; each defined component is there,
      and the offsets are in `N` form, which carries no minus sign. */
  lemma ShadowComponents(s: Shadow)
    ensures ShadowTokens(Some(s)) != [] <==>
      s.blur.Some? || s.saturation.Some? || s.offsetX.Some? || s.offsetY.Some?
    ensures ShadowTokens(Some(s)) != [] ==> ShadowTokens(Some(s)) == ["e-shadow-" + Join("_", ShadowParts(s))]
    ensures IsSubseq(Keys(ShadowParts(s)), ["bl", "st", "x", "y"])
    ensures "bl" in Keys(ShadowParts(s)) <==> s.blur.Some?
    ensures "st" in Keys(ShadowParts(s)) <==> s.saturation.Some?
    ensures s.offsetX.Some? ==> "x-" + NSigned(s.offsetX.value) in ShadowParts(s)
    ensures s.offsetY.Some? ==> "y-" + NSigned(s.offsetY.value) in ShadowParts(s)
  {
    ShadowPresence(s);
    ShadowKeysOrder(s);
    ShadowOffsets(s);
  }

  lemma ShadowPresence(s: Shadow)
    ensures ShadowParts(s) != [] <==>
      s.blur.Some? || s.saturation.Some? || s.offsetX.Some? || s.offsetY.Some?
  {
    EmitAllEmpty(ShadowFields(s));
    assert ShadowFields(s)[0].fires == s.blur.Some? && ShadowFields(s)[1].fires == s.saturation.Some?;
    assert ShadowFields(s)[2].fires == s.offsetX.Some? && ShadowFields(s)[3].fires == s.offsetY.Some?;
  }

  lemma ShadowKeysOrder(s: Shadow)
    ensures IsSubseq(Keys(ShadowParts(s)), ["bl", "st", "x", "y"])
    ensures "bl" in Keys(ShadowParts(s)) <==> s.blur.Some?
    ensures "st" in Keys(ShadowParts(s)) <==> s.saturation.Some?
  {
    assert IsSubseq(Keys(ShadowParts(s)), ShadowKeys) by {
      ShadowTable(s);
      EmitAllKeys(ShadowFields(s));
    }
    assert "bl" in Keys(ShadowParts(s)) <==> s.blur.Some? by {
      ShadowKeyAt(s, 0, "bl", s.blur.Some?, ShowOr(s.blur));
    }
    assert "st" in Keys(ShadowParts(s)) <==> s.saturation.Some? by {
      ShadowKeyAt(s, 1, "st", s.saturation.Some?, ShowOr(s.saturation));
    }
  }

  lemma ShadowOffsets(s: Shadow)
    ensures s.offsetX.Some? ==> "x-" + NSigned(s.offsetX.value) in ShadowParts(s)
    ensures s.offsetY.Some? ==> "y-" + NSigned(s.offsetY.value) in ShadowParts(s)
  {
    if s.offsetX.Some? {
      ShadowKeyAt(s, 2, "x", true, NSigned(s.offsetX.value));
      assert "x" + "-" == "x-";
    }
    if s.offsetY.Some? {
      ShadowKeyAt(s, 3, "y", true, NSigned(s.offsetY.value));
      assert "y" + "-" == "y-";
    }
  }

  lemma GradientTable(g: Gradient)
    ensures FieldKeys(GradientFields(g)) == GradientKeys
    ensures DashFreeKeys(GradientFields(g)) && Distinct(GradientKeys)
  {
  }

  lemma GradientKeyAt(g: Gradient, i: nat, key: string, fires: bool, value: string)
    requires i < |GradientKeys| && GradientField(g, i) == Field(key, fires, value)
    ensures key in Keys(GradientParts(g)) <==> fires
    ensures fires ==> key + "-" + value in GradientParts(g)
  {
    GradientTable(g);
    EmitAllKeyAt(GradientFields(g), i);
  }

  /** The tests of the four gradient components. */
  lemma GradientTests(g: Gradient)
    ensures |GradientFields(g)| == 4
    ensures GradientFields(g)[0].fires == g.direction.Some?
    ensures GradientFields(g)[1].fires == TruthyStr(g.fromColor)
    ensures GradientFields(g)[2].fires == TruthyStr(g.toColor)
    ensures GradientFields(g)[3].fires == g.stopPoint.Some?
  {
  }

  /** The enhancement gradient is pushed exactly when some component is set. */
  lemma GradientPresence(g: Gradient)
    ensures GradientTokens(Some(g)) != [] <==>
      g.direction.Some? || TruthyStr(g.fromColor) || TruthyStr(g.toColor) || g.stopPoint.Some?
  {
    var fs := GradientFields(g);
    GradientTests(g);
    EmitAllEmpty(fs);
    if !(fs[0].fires || fs[1].fires || fs[2].fires || fs[3].fires) {
      forall i | 0 <= i < |fs| ensures !fs[i].fires {
        assert i == 0 || i == 1 || i == 2 || i == 3;
      }
    }
  }

  /** The enhancement gradient's components keep the order ld, from, to, sp;
      direction and stop point are there exactly when defined. */
  lemma GradientComponents(g: Gradient)
    ensures IsSubseq(Keys(GradientParts(g)), ["ld", "from", "to", "sp"])
    ensures "ld" in Keys(GradientParts(g)) <==> g.direction.Some?
    ensures "sp" in Keys(GradientParts(g)) <==> g.stopPoint.Some?
  {
    GradientTable(g);
    EmitAllKeys(GradientFields(g));
    GradientKeyAt(g, 0, "ld", g.direction.Some?, ShowOr(g.direction));
    GradientKeyAt(g, 3, "sp", g.stopPoint.Some?, ShowOr(g.stopPoint));
  }

  /** The gradient colours are there exactly when truthy, and lose their `#`. */
  lemma GradientColours(g: Gradient)
    ensures "from" in Keys(GradientParts(g)) <==> TruthyStr(g.fromColor)
    ensures "to" in Keys(GradientParts(g)) <==> TruthyStr(g.toColor)
    ensures TruthyStr(g.fromColor) ==> "from-" + StripHash(g.fromColor.value) in GradientParts(g)
    ensures TruthyStr(g.toColor) ==> "to-" + StripHash(g.toColor.value) in GradientParts(g)
  {
    GradientKeyAt(g, 1, "from", TruthyStr(g.fromColor), StripHash(StrOr(g.fromColor)));
    GradientKeyAt(g, 2, "to", TruthyStr(g.toColor), StripHash(StrOr(g.toColor)));
    assert "from" + "-" == "from-" && "to" + "-" == "to-";
  }

  /* ---------------- lemmas: filters ---------------- */

  /** The filter tokens are exactly the tokens of the filter fields whose test
      passes (blur and sharpen when truthy, the six others when defined), in the
      written order `bl`, `e-sharpen`, `e-contrast`, `e-brightness`,
      `e-saturation`, `e-gamma`, `e-hue`, `e-vibrance`. */
  lemma FilterTokensExact(e: ImageEnhancements)
    ensures forall t :: t in EmitAll(FilterFields(e)) <==>
      exists i :: 0 <= i < |FilterKeys| && FilterField(e, i).fires && t == Token(FilterField(e, i))
    ensures IsSubseq(EmitAll(FilterFields(e)), Tokens(FilterFields(e)))
    ensures forall i :: 0 <= i < |FilterKeys| ==> Tokens(FilterFields(e))[i] == Token(FilterField(e, i))
  {
    var fs := FilterFields(e);
    EmitAllTokens(fs);
    EmitAllInOrder(fs);
    assert |fs| == |FilterKeys|;
    forall i | 0 <= i < |fs| ensures fs[i] == FilterField(e, i) { }
  }

  /** A zero contrast is kept as `e-contrast-0`. */
  lemma ZeroContrastKept(e: ImageEnhancements)
    requires e.contrast == Some(Num(0))
    ensures "e-contrast-0" in EnhancementsTokens(e)
  {
    var fs := FilterFields(e);
    var lead := LeadingTokens(e);
    assert "e-contrast-0" in lead by {
      assert fs[2] == Field("e-contrast", true, "0");
      assert Token(fs[2]) == "e-contrast-0";
      EmitAllTokenAt(fs, 2);
      InMiddle([], EmitAll(fs), FlagTokens(e) + ShadowTokens(e.shadow), "e-contrast-0");
    }
    var rest := (if e.background.Some? then BackgroundTokens(lead, e.background.value) else [])
      + GradientTokens(e.gradient);
    assert EnhancementsTokens(e) == lead + rest;
  }

  /** A falsy blur pushes nothing: every filter token is then an `e-` token. */
  lemma FalsyBlurDropped(e: ImageEnhancements)
    requires !Truthy(e.blur)
    ensures forall t :: t in EmitAll(FilterFields(e)) ==> t[0] == 'e'
  {
    var fs := FilterFields(e);
    EmitAllTokens(fs);
    forall t | t in EmitAll(fs) ensures t[0] == 'e' {
      var i :| 0 <= i < |fs| && fs[i].fires && t == Token(fs[i]);
      assert i != 0;
    }
  }

  /* ---------------- lemmas: the video encoder ---------------- */

  lemma TrimmingTable(t: Trimming)
    ensures FieldKeys(TrimmingFields(t)) == TrimmingKeys
    ensures DashFreeKeys(TrimmingFields(t)) && Distinct(TrimmingKeys)
  {
  }

  lemma TrimmingKeyAt(t: Trimming, i: nat, key: string, fires: bool, value: string)
    requires i < |TrimmingKeys| && TrimmingField(t, i) == Field(key, fires, value)
    ensures key in Keys(EmitAll(TrimmingFields(t))) <==> fires
    ensures fires ==> key + "-" + value in EmitAll(TrimmingFields(t))
  {
    TrimmingTable(t);
    EmitAllKeyAt(TrimmingFields(t), i);
  }

  /** Trimming: so, eo, du in that order, each whenever defined, `0` included. */
  lemma TrimmingFieldTests(t: Trimming)
    ensures IsSubseq(Keys(EmitAll(TrimmingFields(t))), ["so", "eo", "du"])
    ensures "so" in Keys(EmitAll(TrimmingFields(t))) <==> t.startOffset.Some?
    ensures "eo" in Keys(EmitAll(TrimmingFields(t))) <==> t.endOffset.Some?
    ensures "du" in Keys(EmitAll(TrimmingFields(t))) <==> t.duration.Some?
  {
    TrimmingTable(t);
    EmitAllKeys(TrimmingFields(t));
    TrimmingKeyAt(t, 0, "so", t.startOffset.Some?, ShowOr(t.startOffset));
    TrimmingKeyAt(t, 1, "eo", t.endOffset.Some?, ShowOr(t.endOffset));
    TrimmingKeyAt(t, 2, "du", t.duration.Some?, ShowOr(t.duration));
  }

  lemma ThumbnailTable(th: Thumbnail)
    ensures FieldKeys(ThumbnailFields(th)) == ThumbnailKeys(th)
    ensures DashFreeKeys(ThumbnailFields(th)) && Distinct(ThumbnailKeys(th))
  {
    var k := ThumbnailKeys(th);
    forall i, j | 0 <= i < j < |k| ensures k[i] != k[j] {
      assert k[i][0] != k[j][0] || |k[i]| != |k[j]| || k[i][1] != k[j][1];
    }
  }

  lemma ThumbnailKeyAt(th: Thumbnail, i: nat, key: string, fires: bool, value: string)
    requires i < 9 && ThumbnailField(th, i) == Field(key, fires, value)
    ensures key in Keys(EmitAll(ThumbnailFields(th))) <==> fires
    ensures fires ==> key + "-" + value in EmitAll(ThumbnailFields(th))
  {
    ThumbnailTable(th);
    EmitAllKeyAt(ThumbnailFields(th), i);
  }

  /** Thumbnail: the keys follow so, w, h, ar, the crop key, fo, b, bg, r. */
  lemma ThumbnailFieldOrder(th: Thumbnail)
    ensures IsSubseq(Keys(EmitAll(ThumbnailFields(th))), ThumbnailKeys(th))
  {
    ThumbnailTable(th);
    EmitAllKeys(ThumbnailFields(th));
  }

  lemma ThumbnailKeysFrom(th: Thumbnail, key: string)
    requires key !in ThumbnailKeys(th)
    ensures key !in Keys(EmitAll(ThumbnailFields(th)))
  {
    ThumbnailTable(th);
    EmitAllKeys(ThumbnailFields(th));
  }

  /** Thumbnail crop mode `extract` or `pad_resize`: pushed as `cm-<mode>`, and no `c-` token. */
  lemma ThumbnailPadCropMode(th: Thumbnail)
    requires th.cropMode.Some? && PadCropMode(th.cropMode.value)
    ensures "cm-" + th.cropMode.value in EmitAll(ThumbnailFields(th))
    ensures "c" !in Keys(EmitAll(ThumbnailFields(th)))
  {
    ThumbnailKeyAt(th, 4, "cm", true, th.cropMode.value);
    assert "cm" + "-" == "cm-";
    assert ThumbnailKeys(th) == ["so", "w", "h", "ar", "cm", "fo", "b", "bg", "r"];
    ThumbnailKeysFrom(th, "c");
  }

  /** Any other non-empty thumbnail crop mode: pushed as `c-<mode>`, and no `cm-` token. */
  lemma ThumbnailOtherCropMode(th: Thumbnail)
    requires TruthyStr(th.cropMode) && !PadCropMode(th.cropMode.value)
    ensures "c-" + th.cropMode.value in EmitAll(ThumbnailFields(th))
    ensures "cm" !in Keys(EmitAll(ThumbnailFields(th)))
  {
    var mode := th.cropMode.value;
    OtherCropKey(th);
    ThumbnailKeysFrom(th, "cm");
    assert "c-" + mode in EmitAll(ThumbnailFields(th)) by {
      ThumbnailKeyAt(th, 4, "c", true, mode);
      assert "c" + "-" + mode == "c-" + mode;
    }
  }

  /** A crop mode other than `extract` and `pad_resize` is keyed `c`, and `cm` is no thumbnail key. */
  lemma OtherCropKey(th: Thumbnail)
    requires !(th.cropMode.Some? && PadCropMode(th.cropMode.value))
    ensures CropKey(th) == "c"
    ensures "cm" !in ThumbnailKeys(th)
  {
    assert ThumbnailKeys(th) == ["so", "w", "h", "ar", "c", "fo", "b", "bg", "r"];
  }

  /** Thumbnail: time and radius whenever defined, `0` included; width and height only when truthy. */
  lemma ThumbnailFieldTests(th: Thumbnail)
    ensures "so" in Keys(EmitAll(ThumbnailFields(th))) <==> th.time.Some?
    ensures "r" in Keys(EmitAll(ThumbnailFields(th))) <==> th.radius.Some?
    ensures "w" in Keys(EmitAll(ThumbnailFields(th))) <==> Truthy(th.width)
    ensures "h" in Keys(EmitAll(ThumbnailFields(th))) <==> Truthy(th.height)
  {
    ThumbnailKeyAt(th, 0, "so", th.time.Some?, ShowOr(th.time));
    ThumbnailKeyAt(th, 8, "r", th.radius.Some?, ShowOr(th.radius));
    ThumbnailKeyAt(th, 1, "w", Truthy(th.width), ShowOr(th.width));
    ThumbnailKeyAt(th, 2, "h", Truthy(th.height), ShowOr(th.height));
  }

  /** Thumbnail border: pushed whenever present. */
  lemma ThumbnailBorder(th: Thumbnail)
    ensures "b" in Keys(EmitAll(ThumbnailFields(th))) <==> th.border.Some?
  {
    ThumbnailKeyAt(th, 6, "b", th.border.Some?, BorderValue(th.border));
  }

  /** The thumbnail border's token is `b-<width>_<color>`. */
  lemma ThumbnailBorderToken(th: Thumbnail)
    requires th.border.Some?
    ensures "b-" + Show(th.border.value.width) + "_" + Show(th.border.value.color) in EmitAll(ThumbnailFields(th))
  {
    var w := Show(th.border.value.width);
    var c := Show(th.border.value.color);
    var t := "b-" + w + "_" + c;
    assert t == "b" + "-" + (w + "_" + c) by {
      assert "b-" + w + "_" + c == "b-" + (w + "_" + c);
      assert "b-" == "b" + "-";
    }
    ThumbnailKeyAt(th, 6, "b", true, w + "_" + c);
  }

}
