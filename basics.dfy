/** `basicsToParams` and `videoBasicsToParams`: geometry fields to `key-value`
    tokens in a fixed order. Width, height, aspect ratio, crop mode, focus and
    dpr (and, for video, border and background) are pushed only when truthy;
    zoom, x, y, xc, yc (and, for video, rotate and radius) whenever defined,
    `0` included. */
module BasicsEncoder {

  import opened Wrappers
  import opened Text
  import opened Fields
  import opened Config

  const ImageBasicsKeys: seq<string> := ["w", "h", "ar", "c", "fo", "z", "dpr", "x", "y", "xc", "yc"]

  const VideoBasicsKeys: seq<string> := ["w", "h", "ar", "c", "fo", "rt", "b", "r", "bg"]

  /** The i-th push of `basicsToParams`, in source order. */
  function ImageBasicsField(b: ImageBasics, i: nat): Field
    requires i < |ImageBasicsKeys|
  {
    match i
    case 0 => Field("w", Truthy(b.width), ShowOr(b.width))
    case 1 => Field("h", Truthy(b.height), ShowOr(b.height))
    case 2 => Field("ar", Truthy(b.aspectRatio), ShowOr(b.aspectRatio))
    case 3 => Field("c", Truthy(b.cropMode), ShowOr(b.cropMode))
    case 4 => Field("fo", Truthy(b.focus), ShowOr(b.focus))
    case 5 => Field("z", b.zoom.Some?, ShowOr(b.zoom))
    case 6 => Field("dpr", Truthy(b.dpr), ShowOr(b.dpr))
    case 7 => Field("x", b.x.Some?, ShowOr(b.x))
    case 8 => Field("y", b.y.Some?, ShowOr(b.y))
    case 9 => Field("xc", b.xc.Some?, ShowOr(b.xc))
    case _ => Field("yc", b.yc.Some?, ShowOr(b.yc))
  }

  function ImageBasicsFields(b: ImageBasics): seq<Field>
  {
    seq(|ImageBasicsKeys|, i requires 0 <= i < |ImageBasicsKeys| => ImageBasicsField(b, i))
  }

  /** `basicsToParams` */
  function BasicsTokens(b: ImageBasics): seq<string>
  {
    EmitAll(ImageBasicsFields(b))
  }

  /** The i-th push of `videoBasicsToParams`, in source order. */
  function VideoBasicsField(b: VideoBasics, i: nat): Field
    requires i < |VideoBasicsKeys|
  {
    match i
    case 0 => Field("w", Truthy(b.width), ShowOr(b.width))
    case 1 => Field("h", Truthy(b.height), ShowOr(b.height))
    case 2 => Field("ar", Truthy(b.aspectRatio), ShowOr(b.aspectRatio))
    case 3 => Field("c", Truthy(b.cropMode), ShowOr(b.cropMode))
    case 4 => Field("fo", Truthy(b.focus), ShowOr(b.focus))
    case 5 => Field("rt", b.rotate.Some?, ShowOr(b.rotate))
    case 6 => Field("b", Truthy(b.border), ShowOr(b.border))
    case 7 => Field("r", b.radius.Some?, ShowOr(b.radius))
    case _ => Field("bg", Truthy(b.background), ShowOr(b.background))
  }

  function VideoBasicsFields(b: VideoBasics): seq<Field>
  {
    seq(|VideoBasicsKeys|, i requires 0 <= i < |VideoBasicsKeys| => VideoBasicsField(b, i))
  }

  /** `videoBasicsToParams` */
  function VideoBasicsTokens(b: VideoBasics): seq<string>
  {
    EmitAll(VideoBasicsFields(b))
  }

  lemma ImageBasicsTable(b: ImageBasics)
    ensures FieldKeys(ImageBasicsFields(b)) == ImageBasicsKeys
    ensures DashFreeKeys(ImageBasicsFields(b)) && Distinct(ImageBasicsKeys)
  {
    var k := ImageBasicsKeys;
    forall i, j | 0 <= i < j < |k| ensures k[i] != k[j] {
      assert k[i][0] != k[j][0] || |k[i]| != |k[j]| || k[i][1] != k[j][1];
    }
  }

  lemma VideoBasicsTable(b: VideoBasics)
    ensures FieldKeys(VideoBasicsFields(b)) == VideoBasicsKeys
    ensures DashFreeKeys(VideoBasicsFields(b)) && Distinct(VideoBasicsKeys)
  {
    var k := VideoBasicsKeys;
    forall i, j | 0 <= i < j < |k| ensures k[i] != k[j] {
      assert k[i][0] != k[j][0] || |k[i]| != |k[j]| || k[i][1] != k[j][1];
    }
  }

  lemma ImageBasicsSubseq(b: ImageBasics)
    ensures IsSubseq(Keys(BasicsTokens(b)), ImageBasicsKeys)
  {
    ImageBasicsTable(b);
    EmitAllKeys(ImageBasicsFields(b));
  }

  lemma ImageBasicsKeyAt(b: ImageBasics, i: nat, key: string, fires: bool, value: string)
    requires i < |ImageBasicsKeys| && ImageBasicsField(b, i) == Field(key, fires, value)
    ensures key in Keys(BasicsTokens(b)) <==> fires
    ensures fires ==> key + "-" + value in BasicsTokens(b)
  {
    ImageBasicsTable(b);
    EmitAllKeyAt(ImageBasicsFields(b), i);
  }

  lemma VideoBasicsSubseq(b: VideoBasics)
    ensures IsSubseq(Keys(VideoBasicsTokens(b)), VideoBasicsKeys)
  {
    VideoBasicsTable(b);
    EmitAllKeys(VideoBasicsFields(b));
  }

  lemma VideoBasicsKeyAt(b: VideoBasics, i: nat, key: string, fires: bool, value: string)
    requires i < |VideoBasicsKeys| && VideoBasicsField(b, i) == Field(key, fires, value)
    ensures key in Keys(VideoBasicsTokens(b)) <==> fires
    ensures fires ==> key + "-" + value in VideoBasicsTokens(b)
  {
    VideoBasicsTable(b);
    EmitAllKeyAt(VideoBasicsFields(b), i);
  }

  /** Image basics: the token keys follow w, h, ar, c, fo, z, dpr, x, y, xc, yc
      whatever is set. */
  lemma BasicsFieldOrder(b: ImageBasics)
    ensures IsSubseq(Keys(BasicsTokens(b)), ["w", "h", "ar", "c", "fo", "z", "dpr", "x", "y", "xc", "yc"])
  {
    ImageBasicsSubseq(b);
  }

  /** Width, height, aspect ratio, crop mode, focus and dpr give a token exactly
      when truthy: `0` and `""` are dropped. */
  lemma BasicsTruthyFields(b: ImageBasics)
    ensures "w" in Keys(BasicsTokens(b)) <==> Truthy(b.width)
    ensures "h" in Keys(BasicsTokens(b)) <==> Truthy(b.height)
    ensures "ar" in Keys(BasicsTokens(b)) <==> Truthy(b.aspectRatio)
    ensures "c" in Keys(BasicsTokens(b)) <==> Truthy(b.cropMode)
    ensures "fo" in Keys(BasicsTokens(b)) <==> Truthy(b.focus)
    ensures "dpr" in Keys(BasicsTokens(b)) <==> Truthy(b.dpr)
    ensures Truthy(b.width) ==> "w-" + Show(b.width.value) in BasicsTokens(b)
    ensures Truthy(b.height) ==> "h-" + Show(b.height.value) in BasicsTokens(b)
  {
    ImageBasicsKeyAt(b, 0, "w", Truthy(b.width), ShowOr(b.width));
    ImageBasicsKeyAt(b, 1, "h", Truthy(b.height), ShowOr(b.height));
    ImageBasicsKeyAt(b, 2, "ar", Truthy(b.aspectRatio), ShowOr(b.aspectRatio));
    ImageBasicsKeyAt(b, 3, "c", Truthy(b.cropMode), ShowOr(b.cropMode));
    ImageBasicsKeyAt(b, 4, "fo", Truthy(b.focus), ShowOr(b.focus));
    ImageBasicsKeyAt(b, 6, "dpr", Truthy(b.dpr), ShowOr(b.dpr));
    assert "w" + "-" == "w-" && "h" + "-" == "h-";
  }

  /** Zoom, x, y, xc and yc give a token exactly when defined, `0` included. */
  lemma BasicsDefinedFields(b: ImageBasics)
    ensures "z" in Keys(BasicsTokens(b)) <==> b.zoom.Some?
    ensures "x" in Keys(BasicsTokens(b)) <==> b.x.Some?
    ensures "y" in Keys(BasicsTokens(b)) <==> b.y.Some?
    ensures "xc" in Keys(BasicsTokens(b)) <==> b.xc.Some?
    ensures "yc" in Keys(BasicsTokens(b)) <==> b.yc.Some?
    ensures b.zoom.Some? ==> "z-" + Show(b.zoom.value) in BasicsTokens(b)
    ensures b.x.Some? ==> "x-" + Show(b.x.value) in BasicsTokens(b)
  {
    ImageBasicsKeyAt(b, 5, "z", b.zoom.Some?, ShowOr(b.zoom));
    ImageBasicsKeyAt(b, 7, "x", b.x.Some?, ShowOr(b.x));
    ImageBasicsKeyAt(b, 8, "y", b.y.Some?, ShowOr(b.y));
    ImageBasicsKeyAt(b, 9, "xc", b.xc.Some?, ShowOr(b.xc));
    ImageBasicsKeyAt(b, 10, "yc", b.yc.Some?, ShowOr(b.yc));
    assert "z" + "-" == "z-" && "x" + "-" == "x-";
  }

  /** A zero width is dropped while a zero zoom is kept as `z-0`. */
  lemma BasicsZeroWidthAndZoom(b: ImageBasics)
    requires b.width == Some(Num(0)) && b.zoom == Some(Num(0))
    ensures "w" !in Keys(BasicsTokens(b))
    ensures "z-0" in BasicsTokens(b)
  {
    ImageBasicsKeyAt(b, 0, "w", Truthy(b.width), ShowOr(b.width));
    ImageBasicsKeyAt(b, 5, "z", b.zoom.Some?, ShowOr(b.zoom));
    assert ShowOr(b.zoom) == "0";
    assert "z" + "-" + "0" == "z-0";
  }

  /** Video basics: the token keys follow w, h, ar, c, fo, rt, b, r, bg whatever is set. */
  lemma VideoBasicsFieldOrder(b: VideoBasics)
    ensures IsSubseq(Keys(VideoBasicsTokens(b)), ["w", "h", "ar", "c", "fo", "rt", "b", "r", "bg"])
  {
    VideoBasicsSubseq(b);
  }

  /** Video basics: width, height, aspect ratio, crop mode, focus, border and
      background give a token only when truthy. */
  lemma VideoBasicsTruthyFields(b: VideoBasics)
    ensures "w" in Keys(VideoBasicsTokens(b)) <==> Truthy(b.width)
    ensures "h" in Keys(VideoBasicsTokens(b)) <==> Truthy(b.height)
    ensures "ar" in Keys(VideoBasicsTokens(b)) <==> Truthy(b.aspectRatio)
    ensures "c" in Keys(VideoBasicsTokens(b)) <==> Truthy(b.cropMode)
    ensures "fo" in Keys(VideoBasicsTokens(b)) <==> Truthy(b.focus)
    ensures "b" in Keys(VideoBasicsTokens(b)) <==> Truthy(b.border)
    ensures "bg" in Keys(VideoBasicsTokens(b)) <==> Truthy(b.background)
  {
    VideoBasicsKeyAt(b, 0, "w", Truthy(b.width), ShowOr(b.width));
    VideoBasicsKeyAt(b, 1, "h", Truthy(b.height), ShowOr(b.height));
    VideoBasicsKeyAt(b, 2, "ar", Truthy(b.aspectRatio), ShowOr(b.aspectRatio));
    VideoBasicsKeyAt(b, 3, "c", Truthy(b.cropMode), ShowOr(b.cropMode));
    VideoBasicsKeyAt(b, 4, "fo", Truthy(b.focus), ShowOr(b.focus));
    VideoBasicsKeyAt(b, 6, "b", Truthy(b.border), ShowOr(b.border));
    VideoBasicsKeyAt(b, 8, "bg", Truthy(b.background), ShowOr(b.background));
  }

  /** Video basics: rotate and radius give a token whenever defined, `0` included. */
  lemma VideoBasicsDefinedFields(b: VideoBasics)
    ensures "rt" in Keys(VideoBasicsTokens(b)) <==> b.rotate.Some?
    ensures "r" in Keys(VideoBasicsTokens(b)) <==> b.radius.Some?
    ensures b.rotate.Some? ==> "rt-" + Show(b.rotate.value) in VideoBasicsTokens(b)
    ensures b.radius.Some? ==> "r-" + Show(b.radius.value) in VideoBasicsTokens(b)
  {
    VideoBasicsKeyAt(b, 5, "rt", b.rotate.Some?, ShowOr(b.rotate));
    VideoBasicsKeyAt(b, 7, "r", b.radius.Some?, ShowOr(b.radius));
    assert "rt" + "-" == "rt-" && "r" + "-" == "r-";
  }

}
