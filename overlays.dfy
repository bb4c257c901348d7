/** `overlaysToParams` and `videoOverlaysToParams`: every overlay becomes one
    group, its parameters joined with `,`, opened by its layer token
    (`l-image`, `l-text`, `l-video`) and closed by `l-end`.

    An image overlay of an unknown type yields no group at all; a video
    overlay of an unknown type still yields its position and timing followed
    by `l-end`. Image overlays are placed with `x-`/`y-`, video overlays with
    `lx-`/`ly-`. */
module OverlaysEncoder {

  import opened Wrappers
  import opened Text
  import opened Fields
  import opened Config
  import opened EnhancementsEncoder

  /* ---------------- image overlays ---------------- */

  /** The image overlay's background colour: without its `#`, padded with `0` to six characters. */
  function PaddedColour(c: string): string
  {
    PadEnd(StripHash(c), 6, '0')
  }

  const ImageLayerKeys: seq<string> := ["w", "h", "x", "y", "bg", "b", "r", "rt", "fl"]

  /** Size when truthy, position whenever defined, then colours, radius, rotation and flip. */
  function ImageLayerField(o: ImageOverlay, i: nat): Field
    requires o.ImageLayer? && i < |ImageLayerKeys|
  {
    match i
    case 0 => Field("w", Truthy(o.width), ShowOr(o.width))
    case 1 => Field("h", Truthy(o.height), ShowOr(o.height))
    case 2 => Field("x", o.x.Some?, ShowOr(o.x))
    case 3 => Field("y", o.y.Some?, ShowOr(o.y))
    case 4 => Field("bg", TruthyStr(o.bgColor), PaddedColour(StrOr(o.bgColor)))
    case 5 => Field("b", TruthyStr(o.border), StripHash(StrOr(o.border)))
    case 6 => Field("r", o.radius.Some?, ShowOr(o.radius))
    case 7 => Field("rt", o.rotation.Some?, ShowOr(o.rotation))
    case _ => Field("fl", Truthy(o.flip), ShowOr(o.flip))
  }

  function ImageLayerFields(o: ImageOverlay): seq<Field>
    requires o.ImageLayer?
  {
    seq(|ImageLayerKeys|, i requires 0 <= i < |ImageLayerKeys| => ImageLayerField(o, i))
  }

  /** The typography flags, in the order bold, italic, strikethrough. */
  function TypographyFlags(bold: bool, italic: bool, strike: bool): (r: seq<string>)
    ensures r == [] <==> !(bold || italic || strike)
  {
    (if bold then ["b"] else []) + (if italic then ["i"] else []) + (if strike then ["strikethrough"] else [])
  }

  /** `tg-<flags joined by _>`, only when some flag is set. */
  function TypographyTokens(bold: bool, italic: bool, strike: bool): (r: seq<string>)
    ensures r != [] <==> bold || italic || strike
    ensures |r| <= 1
  {
    var flags := TypographyFlags(bold, italic, strike);
    if flags == [] then [] else ["tg-" + Join("_", flags)]
  }

  const TextLayerKeys: seq<string> := ["fs", "ff", "co", "bg", "pa", "lfo"]

  /** Font size and family, colours without their `#`, padding and alignment, each when truthy. */
  function TextLayerField(o: ImageOverlay, i: nat): Field
    requires o.TextLayer? && i < |TextLayerKeys|
  {
    match i
    case 0 => Field("fs", Truthy(o.fontSize), ShowOr(o.fontSize))
    case 1 => Field("ff", Truthy(o.fontFamily), ShowOr(o.fontFamily))
    case 2 => Field("co", TruthyStr(o.color), StripHash(StrOr(o.color)))
    case 3 => Field("bg", TruthyStr(o.backgroundColor), StripHash(StrOr(o.backgroundColor)))
    case 4 => Field("pa", Truthy(o.padding), ShowOr(o.padding))
    case _ => Field("lfo", Truthy(o.align), ShowOr(o.align))
  }

  function TextLayerFields(o: ImageOverlay): seq<Field>
    requires o.TextLayer?
  {
    seq(|TextLayerKeys|, i requires 0 <= i < |TextLayerKeys| => TextLayerField(o, i))
  }

  function TextLayerTail(o: ImageOverlay): seq<Field>
    requires o.TextLayer?
  {
    [ Field("rt", o.rotation.Some?, ShowOr(o.rotation)),
      Field("fl", Truthy(o.flip), ShowOr(o.flip)) ]
  }

  /** The gradient overlay's token, pushed even when no component is set. */
  function GradientOverlayToken(g: Gradient): string
  {
    "e-gradient-" + Join("_", GradientParts(g))
  }

  function GradientLayerFields(o: ImageOverlay): seq<Field>
    requires o.GradientLayer?
  {
    [ Field("w", Truthy(o.width), ShowOr(o.width)),
      Field("h", Truthy(o.height), ShowOr(o.height)),
      Field("r", Truthy(o.radius), ShowOr(o.radius)) ]
  }

  function SolidLayerFields(o: ImageOverlay): seq<Field>
    requires o.SolidLayer?
  {
    [ Field("bg", TruthyStr(o.color), StripHash(StrOr(o.color))),
      Field("w", Truthy(o.width), ShowOr(o.width)),
      Field("h", Truthy(o.height), ShowOr(o.height)),
      Field("o", o.opacity.Some?, ShowOr(o.opacity)),
      Field("r", Truthy(o.radius), ShowOr(o.radius)) ]
  }

  function ImageLayerParams(o: ImageOverlay): seq<string>
    requires o.ImageLayer?
  {
    ["l-image", "i-" + ExtractMomentsPath(o.src)] + EmitAll(ImageLayerFields(o)) + ["l-end"]
  }

  /** Font, colours, padding and alignment, then the typography, then rotation and flip. */
  function TextLayerBody(o: ImageOverlay): seq<string>
    requires o.TextLayer?
  {
    EmitAll(TextLayerFields(o)) + TypographyTokens(o.bold, o.italic, o.strike) + EmitAll(TextLayerTail(o))
  }

  function TextLayerParams(o: ImageOverlay): seq<string>
    requires o.TextLayer?
  {
    ["l-text", "i-" + o.text] + TextLayerBody(o) + ["l-end"]
  }

  function GradientLayerParams(o: ImageOverlay): seq<string>
    requires o.GradientLayer?
  {
    ["l-image", "i-ik_canvas", GradientOverlayToken(o.gradient)] + EmitAll(GradientLayerFields(o)) + ["l-end"]
  }

  function SolidLayerParams(o: ImageOverlay): seq<string>
    requires o.SolidLayer?
  {
    ["l-image", "i-ik_canvas"] + EmitAll(SolidLayerFields(o)) + ["l-end"]
  }

  /** The parameters of one image overlay, or none for an unknown type. */
  function ImageOverlayParams(o: ImageOverlay): Option<seq<string>>
  {
    match o
    case ImageLayer(_, _, _, _, _, _, _, _, _, _) => Some(ImageLayerParams(o))
    case TextLayer(_, _, _, _, _, _, _, _, _, _, _, _) => Some(TextLayerParams(o))
    case GradientLayer(_, _, _, _) => Some(GradientLayerParams(o))
    case SolidLayer(_, _, _, _, _) => Some(SolidLayerParams(o))
    case UnknownLayer => None
  }

  /** What one image overlay adds to the list: its group, or nothing. */
  function ImageGroup(o: ImageOverlay): seq<string>
  {
    match ImageOverlayParams(o)
    case Some(params) => [Join(",", params)]
    case None => []
  }

  lemma ImageGroupOf(o: ImageOverlay, params: Option<seq<string>>)
    requires params == ImageOverlayParams(o)
    ensures ImageGroup(o) == if params.Some? then [Join(",", params.value)] else []
  {
  }

  /** The image overlay groups in list order (defined from the last overlay, as the loop appends). */
  function OverlaysTokens(os: seq<ImageOverlay>): seq<string>
    decreases |os|
  {
    if os == [] then [] else OverlaysTokens(os[..|os| - 1]) + ImageGroup(os[|os| - 1])
  }

  lemma OverlaysTokensStep(os: seq<ImageOverlay>, i: nat)
    requires i < |os|
    ensures OverlaysTokens(os[..i + 1]) == OverlaysTokens(os[..i]) + ImageGroup(os[i])
  {
    assert os[..i + 1][..i] == os[..i];
  }

  /** `overlaysToParams` */
  method OverlaysToParams(os: seq<ImageOverlay>) returns (parts: seq<string>)
    ensures parts == OverlaysTokens(os)
  {
    parts := [];
    var i := 0;
    while i < |os|
      invariant 0 <= i <= |os|
      invariant parts == OverlaysTokens(os[..i])
    {
      var params := ImageOverlayParams(os[i]);
      ImageGroupOf(os[i], params);
      OverlaysTokensStep(os, i);
      if params.Some? {
        parts := parts + [Join(",", params.value)];
      }
      i := i + 1;
    }
    assert os[..|os|] == os;
  }

  /* ---------------- image overlay lemmas ---------------- */

  lemma ImageLayerTable(o: ImageOverlay)
    requires o.ImageLayer?
    ensures FieldKeys(ImageLayerFields(o)) == ImageLayerKeys
    ensures DashFreeKeys(ImageLayerFields(o)) && Distinct(ImageLayerKeys)
  {
  }

  /** The keys of a group opened by a layer token and a path and closed by `l-end`. */
  lemma FramedKeys(layer: string, path: string, body: seq<string>)
    requires '-' !in layer
    ensures Keys(["l-" + layer, "i-" + path] + body + ["l-end"]) == ["l", "i"] + Keys(body) + ["l"]
  {
    var head := ["l-" + layer, "i-" + path];
    KeyOfDashed("l", layer);
    KeyOfDashed("i", path);
    KeyOfDashed("l", "end");
    assert "l" + "-" + layer == head[0] && "i" + "-" + path == head[1];
    assert "l" + "-" + "end" == "l-end";
    assert Keys(head) == ["l", "i"] by {
      assert Keys(head)[0] == "l" && Keys(head)[1] == "i";
    }
    assert Keys(["l-end"]) == ["l"];
    KeysAppend(head, body);
    KeysAppend(head + body, ["l-end"]);
  }

  /** The keys of an image layer group: its layer and path, its fields, its close. */
  lemma ImageLayerParamKeys(o: ImageOverlay)
    requires o.ImageLayer?
    ensures ImageLayerParams(o) == ["l-image", "i-" + ExtractMomentsPath(o.src)] + EmitAll(ImageLayerFields(o)) + ["l-end"]
    ensures Keys(ImageLayerParams(o)) == ["l", "i"] + Keys(EmitAll(ImageLayerFields(o))) + ["l"]
    ensures forall k :: k in Keys(EmitAll(ImageLayerFields(o))) ==> k in ImageLayerKeys
  {
    assert "l-" + "image" == "l-image";
    FramedKeys("image", ExtractMomentsPath(o.src), EmitAll(ImageLayerFields(o)));
    ImageLayerTable(o);
    EmitAllKeys(ImageLayerFields(o));
  }

  /** A field of the image layer's table other than `l`/`i`: its key is in the group exactly when it fires. */
  lemma ImageLayerKeyIn(o: ImageOverlay, i: nat, key: string, fires: bool)
    requires o.ImageLayer? && i < |ImageLayerKeys| && ImageLayerKeys[i] == key
    requires key != "l" && key != "i" && ImageLayerField(o, i).fires == fires
    ensures key in Keys(ImageLayerParams(o)) <==> fires
  {
    ImageLayerParamKeys(o);
    ImageLayerTable(o);
    EmitAllKeyAt(ImageLayerFields(o), i);
    assert ImageLayerFields(o)[i] == ImageLayerField(o, i);
  }

  /** A field of the image layer's table that fires has its token in the group. */
  lemma ImageLayerTokenIn(o: ImageOverlay, i: nat, t: string)
    requires o.ImageLayer? && i < |ImageLayerKeys| && ImageLayerField(o, i).fires
    requires t == Token(ImageLayerField(o, i))
    ensures t in ImageLayerParams(o)
  {
    var head := ["l-image", "i-" + ExtractMomentsPath(o.src)];
    var fs := ImageLayerFields(o);
    var body := EmitAll(fs);
    assert t in body by {
      EmitAllTokens(fs);
      assert fs[i] == ImageLayerField(o, i);
    }
    InMiddle(head, body, ["l-end"], t);
  }

  /** Image overlays are placed with `x-`/`y-` whenever defined. */
  lemma ImageLayerPosition(o: ImageOverlay)
    requires o.ImageLayer?
    ensures "x" in Keys(ImageLayerParams(o)) <==> o.x.Some?
    ensures "y" in Keys(ImageLayerParams(o)) <==> o.y.Some?
  {
    ImageLayerKeyIn(o, 2, "x", o.x.Some?);
    ImageLayerKeyIn(o, 3, "y", o.y.Some?);
  }

  /** The position parameters carry the offsets as given. */
  lemma ImageLayerPositionTokens(o: ImageOverlay)
    requires o.ImageLayer?
    ensures o.x.Some? ==> "x-" + Show(o.x.value) in ImageLayerParams(o)
    ensures o.y.Some? ==> "y-" + Show(o.y.value) in ImageLayerParams(o)
  {
    if o.x.Some? {
      ImageLayerTokenIn(o, 2, "x-" + Show(o.x.value));
    }
    if o.y.Some? {
      ImageLayerTokenIn(o, 3, "y-" + Show(o.y.value));
    }
  }

  /** Image overlays never use the video overlays' `lx-`/`ly-`. */
  lemma ImageLayerNoLayerPosition(o: ImageOverlay)
    requires o.ImageLayer?
    ensures "lx" !in Keys(ImageLayerParams(o)) && "ly" !in Keys(ImageLayerParams(o))
  {
    var allowed := ImageLayerKeys + ["l", "i"];
    assert "lx" !in allowed && "ly" !in allowed by {
      assert allowed == ["w", "h", "x", "y", "bg", "b", "r", "rt", "fl", "l", "i"];
    }
    assert forall k :: k in Keys(ImageLayerParams(o)) ==> k in allowed by {
      ImageLayerParamKeys(o);
    }
  }

  /** The background colour is pushed exactly when truthy, losing one `#` and padded to six characters. */
  lemma ImageLayerBackgroundColour(o: ImageOverlay)
    requires o.ImageLayer?
    ensures "bg" in Keys(ImageLayerParams(o)) <==> TruthyStr(o.bgColor)
    ensures TruthyStr(o.bgColor) ==> "bg-" + PaddedColour(o.bgColor.value) in ImageLayerParams(o)
  {
    if TruthyStr(o.bgColor) {
      assert "bg-" + PaddedColour(o.bgColor.value) in ImageLayerParams(o) by {
        ImageLayerTokenIn(o, 4, "bg-" + PaddedColour(o.bgColor.value));
      }
    }
    assert "bg" in Keys(ImageLayerParams(o)) <==> TruthyStr(o.bgColor) by {
      ImageLayerKeyIn(o, 4, "bg", TruthyStr(o.bgColor));
    }
  }

  /** The border is pushed when truthy, losing one `#`. */
  lemma ImageLayerBorder(o: ImageOverlay)
    requires o.ImageLayer?
    ensures "b" in Keys(ImageLayerParams(o)) <==> TruthyStr(o.border)
    ensures TruthyStr(o.border) ==> "b-" + StripHash(o.border.value) in ImageLayerParams(o)
  {
    if TruthyStr(o.border) {
      assert "b-" + StripHash(o.border.value) in ImageLayerParams(o) by {
        ImageLayerTokenIn(o, 5, "b-" + StripHash(o.border.value));
      }
    }
    assert "b" in Keys(ImageLayerParams(o)) <==> TruthyStr(o.border) by {
      ImageLayerKeyIn(o, 5, "b", TruthyStr(o.border));
    }
  }

  /** With every flag set the token is `tg-b_i_strikethrough`. */
  lemma TypographyAllFlags()
    ensures TypographyTokens(true, true, true) == ["tg-b_i_strikethrough"]
  {
    assert TypographyFlags(true, true, true) == ["b", "i", "strikethrough"];
    JoinThree("_", "b", "i", "strikethrough");
    assert "tg-" + ("b" + "_" + ("i" + "_" + "strikethrough")) == "tg-b_i_strikethrough";
  }

  /** The flags keep the order bold, italic, strikethrough, and the `tg-` value splits back on `_` into them. */
  lemma TypographyOrder(bold: bool, italic: bool, strike: bool)
    ensures IsSubseq(TypographyFlags(bold, italic, strike), ["b", "i", "strikethrough"])
    ensures TypographyFlags(bold, italic, strike) != [] ==>
      Split('_', Join("_", TypographyFlags(bold, italic, strike))) == TypographyFlags(bold, italic, strike)
  {
    var flags := TypographyFlags(bold, italic, strike);
    var b := if bold then ["b"] else [];
    var i := if italic then ["i"] else [];
    var st := if strike then ["strikethrough"] else [];
    assert flags == b + i + st;
    assert IsSubseq(i + st, ["i", "strikethrough"]) by {
      assert IsSubseq(st, ["strikethrough"]);
      if italic {
        assert (i + st)[1..] == st;
      }
    }
    if bold {
      assert flags[1..] == i + st;
    }
    if flags != [] {
      assert forall j :: 0 <= j < |flags| ==> '_' !in flags[j];
      SplitJoin('_', flags);
    }
  }

  /** Nothing but the typography in a text overlay starts with `t`. */
  lemma TextBodyTypography(o: ImageOverlay)
    requires o.TextLayer?
    ensures CountPrefixed(TextLayerBody(o), "tg-") == CountPrefixed(TypographyTokens(o.bold, o.italic, o.strike), "tg-")
  {
    var fields := EmitAll(TextLayerFields(o));
    var tg := TypographyTokens(o.bold, o.italic, o.strike);
    var tail := EmitAll(TextLayerTail(o));
    assert NoInitial(fields, 't') by {
      var fs := TextLayerFields(o);
      assert FieldKeys(fs) == TextLayerKeys;
      assert forall i :: 0 <= i < |fs| ==> fs[i].key == TextLayerKeys[i];
      EmitAllInitials(fs, 't');
    }
    assert NoInitial(tail, 't') by {
      EmitAllInitials(TextLayerTail(o), 't');
    }
    CountPrefixedNone(fields, "tg-");
    CountPrefixedNone(tail, "tg-");
    CountPrefixedAppend(fields, tg, "tg-");
    CountPrefixedAppend(fields + tg, tail, "tg-");
  }

  /** A text overlay carries at most one `tg-` parameter, present exactly when some flag is set. */
  lemma TextTypographyCount(o: ImageOverlay)
    requires o.TextLayer?
    ensures CountPrefixed(TextLayerParams(o), "tg-") == (if o.bold || o.italic || o.strike then 1 else 0)
  {
    var head := ["l-text", "i-" + o.text];
    CountPrefixedNone(head, "tg-");
    CountPrefixedNone(["l-end"], "tg-");
    CountPrefixedAppend(head, TextLayerBody(o), "tg-");
    CountPrefixedAppend(head + TextLayerBody(o), ["l-end"], "tg-");
    TextBodyTypography(o);
    var tg := TypographyTokens(o.bold, o.italic, o.strike);
    if tg != [] {
      var t := "tg-" + Join("_", TypographyFlags(o.bold, o.italic, o.strike));
      assert tg == [t];
      assert t[..3] == "tg-";
    }
  }

  /** The overlay's gradient token is pushed even with no component set,
      unlike the enhancement gradient, which is then dropped. */
  lemma GradientOverlayUnconditional(o: ImageOverlay)
    requires o.GradientLayer?
    ensures GradientLayerParams(o)[2] == GradientOverlayToken(o.gradient)
    ensures StartsWith(GradientOverlayToken(o.gradient), "e-gradient-")
    ensures GradientParts(o.gradient) == [] ==>
      GradientOverlayToken(o.gradient) == "e-gradient-" && GradientTokens(Some(o.gradient)) == []
    ensures GradientParts(o.gradient) != [] ==> GradientTokens(Some(o.gradient)) == [GradientOverlayToken(o.gradient)]
  {
    var j := Join("_", GradientParts(o.gradient));
    assert ("e-gradient-" + j)[..|"e-gradient-"|] == "e-gradient-";
  }

  /** A group opens with its first two parameters and closes with `l-end`. */
  lemma GroupFrame(params: seq<string>)
    requires |params| >= 2 && params[|params| - 1] == "l-end"
    ensures StartsWith(Join(",", params), params[0] + "," + params[1])
    ensures EndsWith(Join(",", params), ",l-end")
  {
    JoinOpening(",", params);
    assert "," + params[|params| - 1] == ",l-end";
    JoinClosing(",", params);
  }

  /** A group made of two opening parameters, a body and `l-end`. */
  lemma Framed(params: seq<string>, head: seq<string>, body: seq<string>)
    requires |head| == 2 && params == head + body + ["l-end"]
    ensures StartsWith(Join(",", params), head[0] + "," + head[1])
    ensures EndsWith(Join(",", params), ",l-end")
  {
    assert params[0] == head[0] && params[1] == head[1] && params[|params| - 1] == "l-end";
    GroupFrame(params);
  }

  /** The one group `g` built from a framed parameter list opens with `opening`. */
  lemma FramedGroup(g: seq<string>, params: seq<string>, head: seq<string>, body: seq<string>, opening: string)
    requires g == [Join(",", params)]
    requires |head| == 2 && params == head + body + ["l-end"] && opening == head[0] + "," + head[1]
    ensures StartsWith(g[0], opening)
    ensures EndsWith(g[0], ",l-end")
  {
    Framed(params, head, body);
  }

  lemma ImageLayerGroup(o: ImageOverlay)
    requires o.ImageLayer?
    ensures ImageGroup(o) == [Join(",", ImageLayerParams(o))]
    ensures StartsWith(ImageGroup(o)[0], "l-image,i-" + ExtractMomentsPath(o.src))
    ensures EndsWith(ImageGroup(o)[0], ",l-end")
  {
    var path := ExtractMomentsPath(o.src);
    var params := ImageLayerParams(o);
    assert ImageGroup(o) == [Join(",", params)] by {
      ImageGroupOf(o, ImageOverlayParams(o));
    }
    assert StartsWith(ImageGroup(o)[0], "l-image,i-" + path) && EndsWith(ImageGroup(o)[0], ",l-end") by {
      var head := ["l-image", "i-" + path];
      assert "l-image" + "," + head[1] == "l-image,i-" + path by {
        assert "l-image" + "," + ("i-" + path) == ("l-image" + "," + "i-") + path;
        assert "l-image" + "," + "i-" == "l-image,i-";
      }
      assert params == head + EmitAll(ImageLayerFields(o)) + ["l-end"];
      FramedGroup(ImageGroup(o), params, head, EmitAll(ImageLayerFields(o)), "l-image,i-" + path);
    }
  }

  lemma TextLayerGroup(o: ImageOverlay)
    requires o.TextLayer?
    ensures ImageGroup(o) == [Join(",", TextLayerParams(o))]
    ensures StartsWith(ImageGroup(o)[0], "l-text,i-" + o.text)
    ensures EndsWith(ImageGroup(o)[0], ",l-end")
  {
    var head := ["l-text", "i-" + o.text];
    assert "l-text" + "," + head[1] == "l-text,i-" + o.text by {
      assert "l-text" + "," + ("i-" + o.text) == ("l-text" + "," + "i-") + o.text;
      assert "l-text" + "," + "i-" == "l-text,i-";
    }
    assert ImageGroup(o) == [Join(",", TextLayerParams(o))];
    Framed(TextLayerParams(o), head, TextLayerBody(o));
  }

  lemma CanvasLayerGroup(o: ImageOverlay)
    requires o.GradientLayer? || o.SolidLayer?
    ensures o.GradientLayer? ==> ImageGroup(o) == [Join(",", GradientLayerParams(o))]
    ensures o.SolidLayer? ==> ImageGroup(o) == [Join(",", SolidLayerParams(o))]
    ensures |ImageGroup(o)| == 1 && StartsWith(ImageGroup(o)[0], "l-image,i-ik_canvas")
    ensures EndsWith(ImageGroup(o)[0], ",l-end")
  {
    var head := ["l-image", "i-ik_canvas"];
    assert "l-image" + "," + "i-ik_canvas" == "l-image,i-ik_canvas";
    if o.GradientLayer? {
      Framed(GradientLayerParams(o), head, [GradientOverlayToken(o.gradient)] + EmitAll(GradientLayerFields(o)));
    } else {
      Framed(SolidLayerParams(o), head, EmitAll(SolidLayerFields(o)));
    }
  }

  /** Exactly the four known types produce a group. Each group opens with its
      layer token and its first parameter and closes with `l-end`; the solid and
      gradient groups open with the `ik_canvas` image. */
  lemma ImageGroupShape(o: ImageOverlay)
    ensures ImageGroup(o) == [] <==> o.UnknownLayer?
    ensures o.ImageLayer? ==> StartsWith(ImageGroup(o)[0], "l-image,i-" + ExtractMomentsPath(o.src))
    ensures o.TextLayer? ==> StartsWith(ImageGroup(o)[0], "l-text,i-" + o.text)
    ensures o.GradientLayer? || o.SolidLayer? ==> StartsWith(ImageGroup(o)[0], "l-image,i-ik_canvas")
    ensures !o.UnknownLayer? ==> |ImageGroup(o)| == 1 && EndsWith(ImageGroup(o)[0], ",l-end")
  {
    if o.ImageLayer? {
      ImageLayerGroup(o);
    } else if o.TextLayer? {
      TextLayerGroup(o);
    } else if o.GradientLayer? || o.SolidLayer? {
      CanvasLayerGroup(o);
    }
  }

  /** The image overlays that have a known type, in list order. */
  function KnownOverlays(os: seq<ImageOverlay>): (r: seq<ImageOverlay>)
    ensures |r| <= |os|
    ensures forall j :: 0 <= j < |r| ==> !r[j].UnknownLayer?
    ensures (forall i :: 0 <= i < |os| ==> !os[i].UnknownLayer?) ==> r == os
    decreases |os|
  {
    if os == [] then []
    else
      assert os == [os[0]] + os[1..];
      (if os[0].UnknownLayer? then [] else [os[0]]) + KnownOverlays(os[1..])
  }

  lemma {:induction false} KnownOverlaysAppend(a: seq<ImageOverlay>, b: seq<ImageOverlay>)
    ensures KnownOverlays(a + b) == KnownOverlays(a) + KnownOverlays(b)
    decreases |a|
  {
    if a == [] {
      assert a + b == b;
    } else {
      AppendTail(a, b);
      KnownOverlaysAppend(a[1..], b);
    }
  }

  /** The group string of a known overlay. */
  function GroupJoin(o: ImageOverlay): string
  {
    match ImageOverlayParams(o)
    case Some(params) => Join(",", params)
    case None => ""
  }

  lemma KnownOverlaysLast(os: seq<ImageOverlay>)
    requires os != []
    ensures KnownOverlays(os) == KnownOverlays(os[..|os| - 1]) + (if os[|os| - 1].UnknownLayer? then [] else [os[|os| - 1]])
  {
    var last := os[|os| - 1];
    SplitLast(os);
    KnownOverlaysAppend(os[..|os| - 1], [last]);
    assert [last][1..] == [];
  }

  lemma ImageGroupJoin(o: ImageOverlay)
    ensures ImageGroup(o) == if o.UnknownLayer? then [] else [GroupJoin(o)]
  {
    ImageGroupOf(o, ImageOverlayParams(o));
  }

  lemma {:induction false} OverlaysTokensMap(os: seq<ImageOverlay>)
    ensures OverlaysTokens(os) == MapBack(GroupJoin, KnownOverlays(os))
    decreases |os|
  {
    if os != [] {
      var front, last := os[..|os| - 1], os[|os| - 1];
      OverlaysTokensMap(front);
      KnownOverlaysLast(os);
      ImageGroupJoin(last);
      var known := KnownOverlays(front);
      if last.UnknownLayer? {
        assert known + [] == known;
      } else {
        MapBackPush(GroupJoin, known, last);
      }
    }
  }

  /** The list holds one group per known overlay, the j-th group being the
      j-th known overlay's parameters joined with `,`; unknown types leave no trace. */
  lemma OverlaysTokensByKnown(os: seq<ImageOverlay>)
    ensures |OverlaysTokens(os)| == |KnownOverlays(os)|
    ensures forall j :: 0 <= j < |OverlaysTokens(os)| ==>
      OverlaysTokens(os)[j] == Join(",", ImageOverlayParams(KnownOverlays(os)[j]).value)
  {
    OverlaysTokensMap(os);
    MapBackAt(GroupJoin, KnownOverlays(os));
  }

  /* ---------------- video overlays ---------------- */

  /** Width and height of an image or video layer, each when truthy. */
  function MediaFields(width: Option<Val>, height: Option<Val>): seq<Field>
  {
    [Field("w", Truthy(width), ShowOr(width)), Field("h", Truthy(height), ShowOr(height))]
  }

  function VideoTextFields(l: VideoLayer): seq<Field>
    requires l.VideoText?
  {
    [ Field("fs", Truthy(l.fontSize), ShowOr(l.fontSize)),
      Field("ff", Truthy(l.fontFamily), ShowOr(l.fontFamily)),
      Field("co", TruthyStr(l.color), StripHash(StrOr(l.color))),
      Field("pa", Truthy(l.padding), ShowOr(l.padding)) ]
  }

  function VideoSolidFields(l: VideoLayer): seq<Field>
    requires l.VideoSolid?
  {
    [ Field("bg", TruthyStr(l.color), StripHash(StrOr(l.color))),
      Field("w", Truthy(l.width), ShowOr(l.width)),
      Field("h", Truthy(l.height), ShowOr(l.height)),
      Field("r", Truthy(l.radius), ShowOr(l.radius)) ]
  }

  /** The layer type a known layer names in its `l-` token. */
  function VideoLayerType(l: VideoLayer): string
  {
    match l
    case VideoClip(_, _, _) => "video"
    case VideoText(_, _, _, _, _) => "text"
    case _ => "image"
  }

  /** What a known layer puts after `i-`: the media path, the text, or the solid canvas. */
  function VideoLayerInput(l: VideoLayer): string
  {
    match l
    case VideoImage(src, _, _) => ExtractMomentsPath(src)
    case VideoClip(src, _, _) => ExtractMomentsPath(src)
    case VideoText(text, _, _, _, _) => text
    case _ => "ik_canvas"
  }

  /** The layer token and the path or text a known layer opens with. */
  function VideoLayerHead(l: VideoLayer): seq<string>
  {
    if l.VideoUnknown? then [] else ["l-" + VideoLayerType(l), "i-" + VideoLayerInput(l)]
  }

  /** The fields a known layer pushes after its head. */
  function VideoLayerFields(l: VideoLayer): seq<Field>
  {
    match l
    case VideoImage(_, width, height) => MediaFields(width, height)
    case VideoClip(_, width, height) => MediaFields(width, height)
    case VideoText(_, _, _, _, _) => VideoTextFields(l)
    case VideoSolid(_, _, _, _) => VideoSolidFields(l)
    case VideoUnknown => []
  }

  /** The type-specific opening of a video overlay; nothing for an unknown type. */
  function VideoLayerTokens(l: VideoLayer): seq<string>
  {
    VideoLayerHead(l) + EmitAll(VideoLayerFields(l))
  }

  const PlacementKeys: seq<string> := ["lx", "ly", "so", "eo", "du"]

  /** Position and timing, shared by every video overlay, each whenever defined. */
  function PlacementField(o: VideoOverlay, i: nat): Field
    requires i < |PlacementKeys|
  {
    match i
    case 0 => Field("lx", o.x.Some?, ShowOr(o.x))
    case 1 => Field("ly", o.y.Some?, ShowOr(o.y))
    case 2 => Field("so", o.startOffset.Some?, ShowOr(o.startOffset))
    case 3 => Field("eo", o.endOffset.Some?, ShowOr(o.endOffset))
    case _ => Field("du", o.duration.Some?, ShowOr(o.duration))
  }

  function PlacementFields(o: VideoOverlay): seq<Field>
  {
    seq(|PlacementKeys|, i requires 0 <= i < |PlacementKeys| => PlacementField(o, i))
  }

  function VideoOverlayParams(o: VideoOverlay): seq<string>
  {
    VideoLayerTokens(o.layer) + EmitAll(PlacementFields(o)) + ["l-end"]
  }

  function VideoGroup(o: VideoOverlay): string
  {
    Join(",", VideoOverlayParams(o))
  }

  /** The video overlay groups in list order, one per overlay. */
  function VideoOverlaysTokens(os: seq<VideoOverlay>): seq<string>
  {
    MapBack(VideoGroup, os)
  }

  /** `videoOverlaysToParams` */
  method VideoOverlaysToParams(os: seq<VideoOverlay>) returns (parts: seq<string>)
    ensures parts == VideoOverlaysTokens(os)
  {
    parts := [];
    var i := 0;
    while i < |os|
      invariant 0 <= i <= |os|
      invariant parts == VideoOverlaysTokens(os[..i])
    {
      var p := VideoOverlayParams(os[i]);
      parts := parts + [Join(",", p)];
      MapBackTake(VideoGroup, os, i);
      i := i + 1;
    }
    assert os[..|os|] == os;
  }

  /* ---------------- video overlay lemmas ---------------- */

  /** A known layer opens with its layer token and its path (or text, or the `ik_canvas` image). */
  lemma VideoLayerOpening(l: VideoLayer)
    ensures VideoLayerTokens(l) == [] <==> l.VideoUnknown?
    ensures (l.VideoImage? || l.VideoSolid?) ==> VideoLayerTokens(l)[0] == "l-image"
    ensures l.VideoClip? ==> VideoLayerTokens(l)[0] == "l-video"
    ensures l.VideoText? ==> VideoLayerTokens(l)[0] == "l-text" && VideoLayerTokens(l)[1] == "i-" + l.text
    ensures (l.VideoImage? || l.VideoClip?) ==> VideoLayerTokens(l)[1] == "i-" + ExtractMomentsPath(l.src)
    ensures l.VideoSolid? ==> VideoLayerTokens(l)[1] == "i-ik_canvas"
  {
    if l.VideoUnknown? {
      assert VideoLayerTokens(l) == [] + EmitAll([]);
    } else {
      VideoLayerTokensHead(l);
      VideoLayerNames(l);
    }
  }

  /** The layer token and the input each known layer type names. */
  lemma VideoLayerNames(l: VideoLayer)
    ensures (l.VideoImage? || l.VideoSolid?) ==> "l-" + VideoLayerType(l) == "l-image"
    ensures l.VideoClip? ==> "l-" + VideoLayerType(l) == "l-video"
    ensures l.VideoText? ==> "l-" + VideoLayerType(l) == "l-text" && VideoLayerInput(l) == l.text
    ensures (l.VideoImage? || l.VideoClip?) ==> VideoLayerInput(l) == ExtractMomentsPath(l.src)
    ensures l.VideoSolid? ==> "i-" + VideoLayerInput(l) == "i-ik_canvas"
  {
    assert "l-" + "image" == "l-image";
    assert "l-" + "video" == "l-video";
    assert "l-" + "text" == "l-text";
    assert "i-" + "ik_canvas" == "i-ik_canvas";
  }

  lemma VideoLayerTokensHead(l: VideoLayer)
    requires !l.VideoUnknown?
    ensures |VideoLayerTokens(l)| >= 2
    ensures VideoLayerTokens(l)[0] == "l-" + VideoLayerType(l)
    ensures VideoLayerTokens(l)[1] == "i-" + VideoLayerInput(l)
  {
  }

  /** The keys of a layer token and a path followed by fields. */
  lemma HeadedKeys(layer: string, path: string, fs: seq<Field>)
    requires DashFreeKeys(fs)
    ensures forall k :: k in Keys(["l-" + layer, "i-" + path] + EmitAll(fs)) ==> k == "l" || k == "i" || k in FieldKeys(fs)
  {
    var head := ["l-" + layer, "i-" + path];
    assert Keys(head) == ["l", "i"] by {
      KeyOfDashed("l", layer);
      KeyOfDashed("i", path);
      assert head[0] == "l" + "-" + layer && head[1] == "i" + "-" + path;
      assert Keys(head)[0] == "l" && Keys(head)[1] == "i";
    }
    EmitAllKeysWithin(fs);
    KeysAppend(head, EmitAll(fs));
  }

  /** Fields whose keys are a list of dash-free keys none of which starts with `l`, `x` or `y`. */
  lemma FieldKeysAvoid(fs: seq<Field>, keys: seq<string>)
    requires FieldKeys(fs) == keys
    requires forall i :: 0 <= i < |keys| ==> keys[i] != "" && '-' !in keys[i] && keys[i][0] !in "lxy"
    ensures DashFreeKeys(fs)
    ensures forall k :: k in FieldKeys(fs) ==> k != "" && k[0] !in "lxy"
  {
    assert forall i :: 0 <= i < |fs| ==> fs[i].key == keys[i];
  }

  /** A layer's own field keys are dash-free and none starts with `l`, `x` or `y`. */
  lemma VideoLayerFieldKeys(l: VideoLayer)
    ensures DashFreeKeys(VideoLayerFields(l))
    ensures forall k :: k in FieldKeys(VideoLayerFields(l)) ==> k != "" && k[0] !in "lxy"
  {
    match l
    case VideoImage(_, width, height) =>
      MediaFieldKeys(width, height);
    case VideoClip(_, width, height) =>
      MediaFieldKeys(width, height);
    case VideoText(text, fontSize, fontFamily, color, padding) =>
      TextFieldKeys(text, fontSize, fontFamily, color, padding);
    case VideoSolid(color, width, height, radius) =>
      SolidFieldKeys(color, width, height, radius);
    case VideoUnknown =>
  }

  lemma TextFieldKeys(text: string, fontSize: Option<Val>, fontFamily: Option<Val>, color: Option<string>, padding: Option<Val>)
    ensures var fs := VideoTextFields(VideoText(text, fontSize, fontFamily, color, padding));
      DashFreeKeys(fs) && forall k :: k in FieldKeys(fs) ==> k != "" && k[0] !in "lxy"
  {
    var fs := VideoTextFields(VideoText(text, fontSize, fontFamily, color, padding));
    assert FieldKeys(fs) == ["fs", "ff", "co", "pa"];
    FieldKeysAvoid(fs, ["fs", "ff", "co", "pa"]);
  }

  lemma SolidFieldKeys(color: Option<string>, width: Option<Val>, height: Option<Val>, radius: Option<Val>)
    ensures var fs := VideoSolidFields(VideoSolid(color, width, height, radius));
      DashFreeKeys(fs) && forall k :: k in FieldKeys(fs) ==> k != "" && k[0] !in "lxy"
  {
    var fs := VideoSolidFields(VideoSolid(color, width, height, radius));
    assert FieldKeys(fs) == ["bg", "w", "h", "r"];
    FieldKeysAvoid(fs, ["bg", "w", "h", "r"]);
  }

  lemma MediaFieldKeys(width: Option<Val>, height: Option<Val>)
    ensures DashFreeKeys(MediaFields(width, height))
    ensures forall k :: k in FieldKeys(MediaFields(width, height)) ==> k != "" && k[0] !in "lxy"
  {
    assert FieldKeys(MediaFields(width, height)) == ["w", "h"];
    FieldKeysAvoid(MediaFields(width, height), ["w", "h"]);
  }

  lemma KnownVideoLayerKeys(l: VideoLayer)
    requires !l.VideoUnknown?
    ensures forall k :: k in Keys(VideoLayerTokens(l)) ==> k == "l" || k == "i" || k in FieldKeys(VideoLayerFields(l))
  {
    VideoLayerFieldKeys(l);
    HeadedKeys(VideoLayerType(l), VideoLayerInput(l), VideoLayerFields(l));
  }

  /** Besides `l` and `i`, no key a video layer pushes starts with `l`, `x` or `y`:
      a layer never carries a position of its own. */
  lemma VideoLayerKeys(l: VideoLayer)
    ensures forall k :: k in Keys(VideoLayerTokens(l)) ==> k == "l" || k == "i" || (k != "" && k[0] !in "lxy")
  {
    if !l.VideoUnknown? {
      KnownVideoLayerKeys(l);
      VideoLayerFieldKeys(l);
    }
  }

  lemma PlacementTable(o: VideoOverlay)
    ensures FieldKeys(PlacementFields(o)) == PlacementKeys
    ensures DashFreeKeys(PlacementFields(o)) && Distinct(PlacementKeys)
  {
    var k := PlacementKeys;
    forall i, j | 0 <= i < j < |k| ensures k[i] != k[j] {
      assert k[i][0] != k[j][0] || k[i][1] != k[j][1];
    }
  }

  lemma PlacementKeyAt(o: VideoOverlay, i: nat, key: string, fires: bool, value: string)
    requires i < |PlacementKeys| && PlacementField(o, i) == Field(key, fires, value)
    ensures key in Keys(EmitAll(PlacementFields(o))) <==> fires
    ensures fires ==> key + "-" + value in EmitAll(PlacementFields(o))
  {
    PlacementTable(o);
    EmitAllKeyAt(PlacementFields(o), i);
    assert PlacementFields(o)[i] == Field(key, fires, value);
  }

  /** The keys of a video overlay group: the layer's, the placement's, and `l` for `l-end`. */
  lemma VideoOverlayKeys(o: VideoOverlay)
    ensures Keys(VideoOverlayParams(o)) == Keys(VideoLayerTokens(o.layer)) + Keys(EmitAll(PlacementFields(o))) + ["l"]
    ensures forall k :: k in Keys(EmitAll(PlacementFields(o))) ==> k in PlacementKeys
  {
    var layer, place := VideoLayerTokens(o.layer), EmitAll(PlacementFields(o));
    assert forall k :: k in Keys(place) ==> k in PlacementKeys by {
      PlacementTable(o);
      EmitAllKeysWithin(PlacementFields(o));
    }
    ClosedKeys(layer, place);
  }

  /** Closing a group with `l-end` adds the key `l`. */
  lemma ClosedKeys(a: seq<string>, b: seq<string>)
    ensures Keys(a + b + ["l-end"]) == Keys(a) + Keys(b) + ["l"]
  {
    assert Keys(["l-end"]) == ["l"] by {
      KeyOfDashed("l", "end");
      assert "l" + "-" + "end" == "l-end";
    }
    KeysAppend(a, b);
    KeysAppend(a + b, ["l-end"]);
  }

  /** A placement key starting with `l` (other than `l` itself) is in the group exactly when its field fires. */
  lemma PlacementKeyIn(o: VideoOverlay, i: nat, key: string, fires: bool)
    requires i < |PlacementKeys| && PlacementKeys[i] == key && PlacementField(o, i).fires == fires
    requires key != "l" && key != "" && key[0] == 'l'
    ensures key in Keys(VideoOverlayParams(o)) <==> fires
  {
    var lk, pk := Keys(VideoLayerTokens(o.layer)), Keys(EmitAll(PlacementFields(o)));
    assert key in pk <==> fires by {
      PlacementKeyAt(o, i, key, fires, PlacementField(o, i).value);
    }
    assert key !in lk by {
      VideoLayerKeys(o.layer);
    }
    assert Keys(VideoOverlayParams(o)) == lk + pk + ["l"] by {
      VideoOverlayKeys(o);
    }
    InGroupIff(key, Keys(VideoOverlayParams(o)), lk, pk);
  }

  /** A key that is not the layer's and not `l` is in the group exactly when the placement pushes it. */
  lemma InGroupIff(key: string, ks: seq<string>, lk: seq<string>, pk: seq<string>)
    requires ks == lk + pk + ["l"] && key !in lk && key != "l"
    ensures key in ks <==> key in pk
  {
  }

  /** Video overlays are placed with `lx-`/`ly-` whenever defined. */
  lemma VideoOverlayPosition(o: VideoOverlay)
    ensures "lx" in Keys(VideoOverlayParams(o)) <==> o.x.Some?
    ensures "ly" in Keys(VideoOverlayParams(o)) <==> o.y.Some?
  {
    assert "lx" in Keys(VideoOverlayParams(o)) <==> o.x.Some? by {
      PlacementKeyIn(o, 0, "lx", o.x.Some?);
    }
    assert "ly" in Keys(VideoOverlayParams(o)) <==> o.y.Some? by {
      PlacementKeyIn(o, 1, "ly", o.y.Some?);
    }
  }

  /** Video overlays never use the image overlays' `x-`/`y-`. */
  lemma VideoOverlayNoImagePosition(o: VideoOverlay)
    ensures "x" !in Keys(VideoOverlayParams(o)) && "y" !in Keys(VideoOverlayParams(o))
  {
    VideoOverlayLacksKey(o, "x");
    VideoOverlayLacksKey(o, "y");
  }

  /** A key starting with `x` or `y` that is not a placement key is not in a video overlay group. */
  lemma VideoOverlayLacksKey(o: VideoOverlay, k: string)
    requires k != "" && k[0] in "xy" && k !in PlacementKeys
    ensures k !in Keys(VideoOverlayParams(o))
  {
    var lk, pk := Keys(VideoLayerTokens(o.layer)), Keys(EmitAll(PlacementFields(o)));
    assert k !in lk by {
      VideoLayerKeys(o.layer);
    }
    assert k !in pk by {
      VideoOverlayKeys(o);
    }
    assert Keys(VideoOverlayParams(o)) == lk + pk + ["l"] by {
      VideoOverlayKeys(o);
    }
  }

  /** Each placement field that fires has its token in the group. */
  lemma PlacementTokenIn(o: VideoOverlay, i: nat, t: string)
    requires i < |PlacementKeys| && PlacementField(o, i).fires && t == Token(PlacementField(o, i))
    ensures t in VideoOverlayParams(o)
  {
    var f := PlacementField(o, i);
    PlacementKeyAt(o, i, f.key, f.fires, f.value);
    InMiddle(VideoLayerTokens(o.layer), EmitAll(PlacementFields(o)), ["l-end"], t);
  }

  /** The position parameters carry the offsets as given. */
  lemma VideoOverlayPositionTokens(o: VideoOverlay)
    ensures o.x.Some? ==> "lx-" + Show(o.x.value) in VideoOverlayParams(o)
    ensures o.y.Some? ==> "ly-" + Show(o.y.value) in VideoOverlayParams(o)
  {
    if o.x.Some? {
      PlacementTokenIn(o, 0, "lx-" + Show(o.x.value));
    }
    if o.y.Some? {
      PlacementTokenIn(o, 1, "ly-" + Show(o.y.value));
    }
  }

  /** A video overlay pushes no position or timing exactly when all five are undefined. */
  lemma PlacementEmpty(o: VideoOverlay)
    ensures EmitAll(PlacementFields(o)) == [] <==>
      o.x.None? && o.y.None? && o.startOffset.None? && o.endOffset.None? && o.duration.None?
  {
    var fs := PlacementFields(o);
    EmitAllEmpty(fs);
    assert fs[0].fires == o.x.Some? && fs[1].fires == o.y.Some? && fs[2].fires == o.startOffset.Some? &&
      fs[3].fires == o.endOffset.Some? && fs[4].fires == o.duration.Some?;
  }

  /** An overlay of an unknown type still yields a group: its position and
      timing and `l-end`, or `l-end` alone when it has none. */
  lemma UnknownVideoOverlay(o: VideoOverlay)
    requires o.layer.VideoUnknown?
    ensures VideoOverlayParams(o) == EmitAll(PlacementFields(o)) + ["l-end"]
    ensures o.x.None? && o.y.None? && o.startOffset.None? && o.endOffset.None? && o.duration.None? ==>
      Join(",", VideoOverlayParams(o)) == "l-end"
  {
    var place := EmitAll(PlacementFields(o));
    assert VideoLayerTokens(o.layer) == [];
    assert VideoOverlayParams(o) == place + ["l-end"];
    if o.x.None? && o.y.None? && o.startOffset.None? && o.endOffset.None? && o.duration.None? {
      PlacementEmpty(o);
      assert place + ["l-end"] == ["l-end"];
      assert Join(",", ["l-end"]) == "l-end";
    }
  }

  /** Every video overlay group closes with `l-end`; a known layer's group opens
      with the layer token and its path. */
  lemma VideoGroupShape(o: VideoOverlay)
    ensures EndsWith(Join(",", VideoOverlayParams(o)), "l-end")
    ensures !o.layer.VideoUnknown? ==>
      var p := VideoOverlayParams(o);
      StartsWith(Join(",", p), p[0] + "," + p[1]) && p[0] == VideoLayerTokens(o.layer)[0] &&
      p[1] == VideoLayerTokens(o.layer)[1]
  {
    var p := VideoOverlayParams(o);
    if |p| == 1 {
      assert p == ["l-end"];
    } else {
      JoinClosing(",", p);
      var j := Join(",", p);
      assert j[|j| - |"l-end"|..] == (j[|j| - |",l-end"|..])[1..];
    }
    if !o.layer.VideoUnknown? {
      VideoLayerTokensHead(o.layer);
      JoinOpening(",", p);
    }
  }

  /** The list holds exactly one group per video overlay, in list order. */
  lemma {:induction false} VideoOverlaysOnePerOverlay(os: seq<VideoOverlay>)
    ensures |VideoOverlaysTokens(os)| == |os|
    ensures forall j :: 0 <= j < |os| ==> VideoOverlaysTokens(os)[j] == VideoGroup(os[j])
  {
    MapBackAt(VideoGroup, os);
  }

}
