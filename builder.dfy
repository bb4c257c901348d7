/** `buildTrString` and `buildImageKitUrl`.

    `buildTrString` dispatches on the media type and pushes each present
    category's tokens in a fixed order (IMAGE: basics, enhancements, AI,
    overlays; VIDEO: basics, enhancements, overlays, audio), drops the empty
    strings and joins the rest with `,`. `buildImageKitUrl` returns the source
    URL untouched when there are no tokens, and otherwise adds `tr=<tokens>`
    to its query: through the parsed URL when `new URL(src)` succeeds, by
    plain concatenation when it throws. */
module TransformationBuilder {

  import opened Wrappers
  import opened Text
  import opened Fields
  import opened Config
  import opened BasicsEncoder
  import opened EnhancementsEncoder
  import opened AiEncoder
  import opened OverlaysEncoder
  import opened AudioEncoder
  import opened CategoryKeys

  /* ---------------- what each category contributes ---------------- */

  function ImageBasicsPart(c: ImageConfig): seq<string>
  {
    if c.basics.Some? then BasicsTokens(c.basics.value) else []
  }

  function ImageEnhancementsPart(c: ImageConfig): seq<string>
  {
    if c.enhancements.Some? then EnhancementsTokens(c.enhancements.value) else []
  }

  function ImageAiPart(c: ImageConfig): seq<string>
  {
    if c.ai.Some? then AiTokens(c.ai.value) else []
  }

  function ImageOverlaysPart(c: ImageConfig): seq<string>
  {
    if c.overlays.Some? then OverlaysTokens(c.overlays.value) else []
  }

  /** The IMAGE branch: basics, enhancements, AI, overlays. */
  function ImageTokens(c: ImageConfig): seq<string>
  {
    ImageBasicsPart(c) + ImageEnhancementsPart(c) + ImageAiPart(c) + ImageOverlaysPart(c)
  }

  function VideoBasicsPart(c: VideoConfig): seq<string>
  {
    if c.basics.Some? then VideoBasicsTokens(c.basics.value) else []
  }

  function VideoEnhancementsPart(c: VideoConfig): seq<string>
  {
    if c.enhancements.Some? then VideoEnhancementsTokens(c.enhancements.value) else []
  }

  function VideoOverlaysPart(c: VideoConfig): seq<string>
  {
    if c.overlays.Some? then VideoOverlaysTokens(c.overlays.value) else []
  }

  function VideoAudioPart(c: VideoConfig): seq<string>
  {
    if c.audio.Some? then AudioTokens(c.audio.value) else []
  }

  /** The VIDEO branch: basics, enhancements, overlays, audio. */
  function VideoTokens(c: VideoConfig): seq<string>
  {
    VideoBasicsPart(c) + VideoEnhancementsPart(c) + VideoOverlaysPart(c) + VideoAudioPart(c)
  }

  /** The list `buildTrString` assembles before filtering. */
  function ConfigTokens(config: TransformationConfig): seq<string>
  {
    match config
    case Image(c) => ImageTokens(c)
    case Video(c) => VideoTokens(c)
  }

  /** The string `buildTrString` returns. */
  function TrString(config: TransformationConfig): string
  {
    Join(",", FilterNonEmpty(ConfigTokens(config)))
  }

  /** `buildTrString` */
  method BuildTrString(config: TransformationConfig) returns (tr: string)
    ensures tr == TrString(config)
  {
    var parts: seq<string> := [];
    if config.Image? {
      var c := config.image;
      if c.basics.Some? {
        parts := parts + BasicsTokens(c.basics.value);
      }
      assert parts == ImageBasicsPart(c);
      if c.enhancements.Some? {
        parts := parts + EnhancementsTokens(c.enhancements.value);
      }
      assert parts == ImageBasicsPart(c) + ImageEnhancementsPart(c);
      if c.ai.Some? {
        parts := parts + AiTokens(c.ai.value);
      }
      assert parts == ImageBasicsPart(c) + ImageEnhancementsPart(c) + ImageAiPart(c);
      if c.overlays.Some? {
        var groups := OverlaysToParams(c.overlays.value);
        parts := parts + groups;
      }
      assert parts == ImageTokens(c);
    }
    if config.Video? {
      var c := config.video;
      if c.basics.Some? {
        parts := parts + VideoBasicsTokens(c.basics.value);
      }
      assert parts == VideoBasicsPart(c);
      if c.enhancements.Some? {
        parts := parts + VideoEnhancementsTokens(c.enhancements.value);
      }
      assert parts == VideoBasicsPart(c) + VideoEnhancementsPart(c);
      if c.overlays.Some? {
        var groups := VideoOverlaysToParams(c.overlays.value);
        parts := parts + groups;
      }
      assert parts == VideoBasicsPart(c) + VideoEnhancementsPart(c) + VideoOverlaysPart(c);
      if c.audio.Some? {
        parts := parts + AudioTokens(c.audio.value);
      }
      assert parts == VideoTokens(c);
    }
    assert parts == ConfigTokens(config);
    tr := Join(",", FilterNonEmpty(parts));
  }

  /* ---------------- buildImageKitUrl ---------------- */

  /** What the builder reads from `new URL(src)`: origin, path and query
      (the query empty or starting with `?`). The fragment is not read. */
  datatype UrlParts = UrlParts(origin: string, pathname: string, search: string)

  /** `src` with `tr=<tr>` added; `parsed` is the result of `new URL(src)`,
      `None` when that throws. */
  function WithTr(src: string, tr: string, parsed: Option<UrlParts>): string
  {
    if tr == "" then src
    else if parsed.Some? then
      var u := parsed.value;
      var search := if u.search != "" then StripLeading(u.search, '?') + "&tr=" + tr else "tr=" + tr;
      u.origin + u.pathname + "?" + search
    else if '?' in src then src + "&tr=" + tr
    else src + "?tr=" + tr
  }

  /** `buildImageKitUrl` */
  function ImageKitUrl(src: string, config: TransformationConfig, parsed: Option<UrlParts>): string
  {
    WithTr(src, TrString(config), parsed)
  }

  /* ---------------- lemmas: filtering and emptiness ---------------- */

  predicate NoneEmpty(ts: seq<string>)
  {
    forall i :: 0 <= i < |ts| ==> ts[i] != ""
  }

  lemma InitialsNoneEmpty(ts: seq<string>, cs: string)
    requires InitialsIn(ts, cs)
    ensures NoneEmpty(ts)
  {
  }

  lemma NoneEmptyAppend(a: seq<string>, b: seq<string>)
    requires NoneEmpty(a) && NoneEmpty(b)
    ensures NoneEmpty(a + b)
  {
    forall i | 0 <= i < |a + b| ensures (a + b)[i] != "" {
      if i < |a| {
        assert (a + b)[i] == a[i];
      } else {
        assert (a + b)[i] == b[i - |a|];
      }
    }
  }

  /** Everything the IMAGE branch pushes before the overlays starts with a letter other than `l`. */
  lemma ImageLeadInitials(c: ImageConfig)
    ensures InitialsIn(ImageBasicsPart(c) + ImageEnhancementsPart(c) + ImageAiPart(c), "abcdefhwxyz")
  {
    var cs := "abcdefhwxyz";
    if c.basics.Some? {
      ImageBasicsInitials(c.basics.value);
      InitialsWiden(ImageBasicsPart(c), "acdfhwxyz", cs);
    }
    if c.enhancements.Some? {
      EnhancementsInitials(c.enhancements.value);
      InitialsWiden(ImageEnhancementsPart(c), "bcehw", cs);
    }
    if c.ai.Some? {
      AiInitials(c.ai.value);
      InitialsWiden(ImageAiPart(c), "bcefhwz", cs);
    }
    InitialsAppend(ImageBasicsPart(c), ImageEnhancementsPart(c), cs);
    InitialsAppend(ImageBasicsPart(c) + ImageEnhancementsPart(c), ImageAiPart(c), cs);
  }

  lemma ImageOverlaysInitials(c: ImageConfig)
    ensures InitialsIn(ImageOverlaysPart(c), "l")
  {
    if c.overlays.Some? {
      OverlaysInitials(c.overlays.value);
    }
  }

  lemma VideoOverlaysNoneEmpty(os: seq<VideoOverlay>)
    ensures NoneEmpty(VideoOverlaysTokens(os))
  {
    VideoOverlaysOnePerOverlay(os);
    forall j | 0 <= j < |os| ensures VideoOverlaysTokens(os)[j] != "" {
      VideoGroupShape(os[j]);
    }
  }

  lemma VideoNoneEmpty(c: VideoConfig)
    ensures NoneEmpty(VideoTokens(c))
  {
    var b, e, o, a := VideoBasicsPart(c), VideoEnhancementsPart(c), VideoOverlaysPart(c), VideoAudioPart(c);
    if c.enhancements.Some? {
      var ve := c.enhancements.value;
      var trim := if ve.trimming.Some? then EmitAll(TrimmingFields(ve.trimming.value)) else [];
      var thumb := if ve.thumbnail.Some? then EmitAll(ThumbnailFields(ve.thumbnail.value)) else [];
      NoneEmptyAppend(trim, thumb);
    }
    if c.overlays.Some? {
      VideoOverlaysNoneEmpty(c.overlays.value);
    }
    assert NoneEmpty(a);
    NoneEmptyAppend(b, e);
    NoneEmptyAppend(b + e, o);
    NoneEmptyAppend(b + e + o, a);
  }

  /** Every token any category pushes is non-empty. */
  lemma ConfigTokensNoneEmpty(config: TransformationConfig)
    ensures NoneEmpty(ConfigTokens(config))
  {
    match config
    case Image(c) =>
      ImageLeadInitials(c);
      ImageOverlaysInitials(c);
      InitialsNoneEmpty(ImageBasicsPart(c) + ImageEnhancementsPart(c) + ImageAiPart(c), "abcdefhwxyz");
      InitialsNoneEmpty(ImageOverlaysPart(c), "l");
      NoneEmptyAppend(ImageBasicsPart(c) + ImageEnhancementsPart(c) + ImageAiPart(c), ImageOverlaysPart(c));
    case Video(c) =>
      VideoNoneEmpty(c);
  }

  /** `filter(Boolean)` never removes anything, and the string is empty
      exactly when no category pushed a token. */
  lemma TrStringIsJoin(config: TransformationConfig)
    ensures TrString(config) == Join(",", ConfigTokens(config))
    ensures TrString(config) == "" <==> ConfigTokens(config) == []
  {
    ConfigTokensNoneEmpty(config);
    FilterKeepsNonEmpty(ConfigTokens(config));
    JoinEmptyIff(",", ConfigTokens(config));
  }

  /** With no category present the string is empty and the URL is `src`
      unchanged, whichever way `new URL` goes. */
  lemma EmptyConfig(config: TransformationConfig, src: string, parsed: Option<UrlParts>)
    requires config.Image? ==>
      config.image.basics.None? && config.image.enhancements.None? && config.image.ai.None? && config.image.overlays.None?
    requires config.Video? ==>
      config.video.basics.None? && config.video.enhancements.None? && config.video.overlays.None? && config.video.audio.None?
    ensures TrString(config) == ""
    ensures ImageKitUrl(src, config, parsed) == src
  {
  }

  /** An IMAGE string is empty exactly when every category pushes nothing:
      present but empty categories count as absent. */
  lemma ImageTrStringEmpty(c: ImageConfig)
    ensures TrString(Image(c)) == "" <==>
      ImageBasicsPart(c) == [] && ImageEnhancementsPart(c) == [] && ImageAiPart(c) == [] && ImageOverlaysPart(c) == []
  {
    TrStringIsJoin(Image(c));
  }

  lemma VideoTrStringEmpty(c: VideoConfig)
    ensures TrString(Video(c)) == "" <==>
      VideoBasicsPart(c) == [] && VideoEnhancementsPart(c) == [] && VideoOverlaysPart(c) == [] && VideoAudioPart(c) == []
  {
    TrStringIsJoin(Video(c));
  }

  /* ---------------- lemmas: category order and exclusions ---------------- */

  /** IMAGE: the overlay groups come last and are the only tokens starting
      with `l`; in the string they follow everything else after one `,`. */
  lemma ImageOverlaysLast(c: ImageConfig)
    ensures var r := ImageTokens(c);
      var n := |r| - |ImageOverlaysPart(c)|;
      forall i :: 0 <= i < |r| ==> |r[i]| > 0 && (r[i][0] == 'l' <==> n <= i)
    ensures var lead := ImageBasicsPart(c) + ImageEnhancementsPart(c) + ImageAiPart(c);
      lead != [] && ImageOverlaysPart(c) != [] ==>
      TrString(Image(c)) == Join(",", lead) + "," + Join(",", ImageOverlaysPart(c))
  {
    var lead := ImageBasicsPart(c) + ImageEnhancementsPart(c) + ImageAiPart(c);
    var o := ImageOverlaysPart(c);
    ImageLeadInitials(c);
    ImageOverlaysInitials(c);
    var r := ImageTokens(c);
    assert r == lead + o;
    forall i | 0 <= i < |r| ensures |r[i]| > 0 && (r[i][0] == 'l' <==> |lead| <= i) {
      if i < |lead| {
        assert r[i] == lead[i];
      } else {
        assert r[i] == o[i - |lead|];
      }
    }
    TrStringIsJoin(Image(c));
    if lead != [] && o != [] {
      JoinAppend(",", lead, o);
    }
  }

  /** A key no category of the VIDEO branch before the audio can push. */
  lemma VideoLeadKeysFrom(c: VideoConfig, key: string)
    requires key !in VideoBasicsKeys && key !in TrimmingKeys
    requires key !in ["so", "w", "h", "ar", "cm", "c", "fo", "b", "bg", "r"]
    requires key != "l" && key !in PlacementKeys
    ensures key !in Keys(VideoBasicsPart(c) + VideoEnhancementsPart(c) + VideoOverlaysPart(c))
  {
    if c.basics.Some? {
      VideoBasicsKeysFrom(c.basics.value, key);
    }
    if c.enhancements.Some? {
      VideoEnhancementsKeysFrom(c.enhancements.value, key);
    }
    if c.overlays.Some? {
      VideoOverlaysKeysFrom(c.overlays.value, key);
    }
    KeysAppend(VideoBasicsPart(c), VideoEnhancementsPart(c));
    KeysAppend(VideoBasicsPart(c) + VideoEnhancementsPart(c), VideoOverlaysPart(c));
  }

  lemma VideoAudioKeys(c: VideoConfig)
    ensures forall k :: k in Keys(VideoAudioPart(c)) ==> k == "ac" || k == "vc"
  {
    if c.audio.Some? {
      AudioTokensExact(c.audio.value);
    }
  }

  /** When the tokens keyed `k1` or `k2` all sit in `tail`, they are exactly the tail of `lead + tail`. */
  lemma KeyedTail(lead: seq<string>, tail: seq<string>, k1: string, k2: string)
    requires k1 !in Keys(lead) && k2 !in Keys(lead)
    requires forall k :: k in Keys(tail) ==> k == k1 || k == k2
    ensures var r := lead + tail;
      forall i :: 0 <= i < |r| ==> (KeyOf(r[i]) == k1 || KeyOf(r[i]) == k2 <==> |lead| <= i)
  {
    var r := lead + tail;
    forall i | 0 <= i < |r| ensures KeyOf(r[i]) == k1 || KeyOf(r[i]) == k2 <==> |lead| <= i {
      if i < |lead| {
        var k := Keys(lead)[i];
        assert k in Keys(lead);
        assert k == KeyOf(r[i]) by {
          assert r[i] == lead[i];
        }
      } else {
        var k := Keys(tail)[i - |lead|];
        assert k in Keys(tail);
        assert k == KeyOf(r[i]) by {
          assert r[i] == tail[i - |lead|];
        }
      }
    }
  }

  /** VIDEO: the audio tokens come last and are the only `ac-`/`vc-` tokens. */
  lemma VideoAudioLast(c: VideoConfig)
    ensures var r := VideoTokens(c);
      var n := |r| - |VideoAudioPart(c)|;
      forall i :: 0 <= i < |r| ==> (KeyOf(r[i]) == "ac" || KeyOf(r[i]) == "vc" <==> n <= i)
  {
    var lead := VideoBasicsPart(c) + VideoEnhancementsPart(c) + VideoOverlaysPart(c);
    VideoLeadKeysFrom(c, "ac");
    VideoLeadKeysFrom(c, "vc");
    VideoAudioKeys(c);
    KeyedTail(lead, VideoAudioPart(c), "ac", "vc");
  }

  /** The image enhancements and AI tokens start with `b`, `c`, `e`, `f`, `h`, `w` or `z`. */
  lemma ImageMiddleInitials(c: ImageConfig)
    ensures InitialsIn(ImageEnhancementsPart(c) + ImageAiPart(c), "bcefhwz")
  {
    if c.enhancements.Some? {
      EnhancementsInitials(c.enhancements.value);
      InitialsWiden(ImageEnhancementsPart(c), "bcehw", "bcefhwz");
    }
    if c.ai.Some? {
      AiInitials(c.ai.value);
    }
    InitialsAppend(ImageEnhancementsPart(c), ImageAiPart(c), "bcefhwz");
  }

  lemma ImageBasicsNoAudio(c: ImageConfig)
    ensures "ac" !in Keys(ImageBasicsPart(c)) && "vc" !in Keys(ImageBasicsPart(c))
  {
    if c.basics.Some? {
      ImageBasicsKeysFrom(c.basics.value, "ac");
      ImageBasicsInitials(c.basics.value);
      InitialsKeys(ImageBasicsPart(c), "acdfhwxyz", "vc");
    }
  }

  lemma KeyAbsent4(a: seq<string>, b: seq<string>, c: seq<string>, d: seq<string>, k: string)
    requires k !in Keys(a) && k !in Keys(b) && k !in Keys(c) && k !in Keys(d)
    ensures k !in Keys(a + b + c + d)
  {
    KeysAppend(a, b);
    KeysAppend(a + b, c);
    KeysAppend(a + b + c, d);
  }

  /** IMAGE never pushes an audio token. */
  lemma ImageExcludesAudio(c: ImageConfig)
    ensures "ac" !in Keys(ImageTokens(c)) && "vc" !in Keys(ImageTokens(c))
  {
    ImageBasicsNoAudio(c);
    ImageLacksKey(c, "ac");
    ImageLacksKey(c, "vc");
  }

  /** A key the basics do not push and whose initial no enhancement, AI or overlay key has. */
  lemma ImageLacksKey(c: ImageConfig, k: string)
    requires k != "" && k[0] !in "bcefhwzl" && k !in Keys(ImageBasicsPart(c))
    ensures k !in Keys(ImageTokens(c))
  {
    var b, e, a, o := ImageBasicsPart(c), ImageEnhancementsPart(c), ImageAiPart(c), ImageOverlaysPart(c);
    assert k !in Keys(o) by {
      ImageOverlaysInitials(c);
      InitialsKeys(o, "l", k);
    }
    assert k !in Keys(e) by {
      if c.enhancements.Some? {
        EnhancementsInitials(c.enhancements.value);
        InitialsKeys(e, "bcehw", k);
      }
    }
    assert k !in Keys(a) by {
      if c.ai.Some? {
        AiInitials(c.ai.value);
        InitialsKeys(a, "bcefhwz", k);
      }
    }
    KeyAbsent4(b, e, a, o, k);
  }

  /** VIDEO never pushes an `e-` effect, so none of the AI effects. */
  lemma VideoExcludesAi(c: VideoConfig)
    ensures "e" !in Keys(VideoTokens(c))
  {
    var lead := VideoBasicsPart(c) + VideoEnhancementsPart(c) + VideoOverlaysPart(c);
    VideoLeadKeysFrom(c, "e");
    VideoAudioKeys(c);
    KeysAppend(lead, VideoAudioPart(c));
  }

  /* ---------------- lemmas: the URL ---------------- */

  /** A URL made of a front, a `?` or `&` and `tr=<tr>` ends with `tr=<tr>` right after the separator. */
  lemma TrAfter(url: string, front: string, sep: char, tr: string)
    requires url == front + [sep] + ("tr=" + tr) && sep in "?&"
    ensures EndsWith(url, "tr=" + tr) && |url| >= |tr| + 4 && url[|url| - |tr| - 4] in "?&"
  {
    assert url[|url| - |"tr=" + tr|..] == "tr=" + tr;
  }

  /** With a non-empty string, the URL ends with `tr=<tr>` right after a `?` or an `&`. */
  lemma WithTrSuffix(src: string, tr: string, parsed: Option<UrlParts>)
    requires tr != ""
    ensures var url := WithTr(src, tr, parsed);
      EndsWith(url, "tr=" + tr) && |url| >= |tr| + 4 && url[|url| - |tr| - 4] in "?&"
  {
    if parsed.Some? {
      ParsedSuffix(src, tr, parsed.value);
    } else {
      FallbackSuffix(src, tr);
    }
  }

  lemma ParsedSuffix(src: string, tr: string, u: UrlParts)
    requires tr != ""
    ensures var url := WithTr(src, tr, Some(u));
      EndsWith(url, "tr=" + tr) && |url| >= |tr| + 4 && url[|url| - |tr| - 4] in "?&"
  {
    var url := WithTr(src, tr, Some(u));
    var tail := "tr=" + tr;
    if u.search != "" {
      var front := u.origin + u.pathname + "?" + StripLeading(u.search, '?');
      assert url == front + ['&'] + tail by {
        assert "&tr=" + tr == ['&'] + tail;
      }
      TrAfter(url, front, '&', tr);
    } else {
      var front := u.origin + u.pathname;
      assert url == front + ['?'] + tail by {
        assert "?" + ("tr=" + tr) == ['?'] + tail;
      }
      TrAfter(url, front, '?', tr);
    }
  }

  lemma FallbackSuffix(src: string, tr: string)
    requires tr != ""
    ensures var url := WithTr(src, tr, None);
      EndsWith(url, "tr=" + tr) && |url| >= |tr| + 4 && url[|url| - |tr| - 4] in "?&"
  {
    var url := WithTr(src, tr, None);
    var sep := if '?' in src then '&' else '?';
    assert url == src + [sep] + ("tr=" + tr) by {
      assert "&tr=" + tr == ['&'] + ("tr=" + tr) && "?tr=" + tr == ['?'] + ("tr=" + tr);
    }
    TrAfter(url, src, sep, tr);
  }

  /** When `new URL` throws, the URL is `src` followed by `&` if `src` already
      holds a `?` and by `?` otherwise. */
  lemma WithTrFallback(src: string, tr: string)
    requires tr != ""
    ensures var url := WithTr(src, tr, None);
      StartsWith(url, src) && |url| > |src| && (url[|src|] == '&' <==> '?' in src) &&
      (url[|src|] == '?' <==> '?' !in src) && url[|src| + 1..] == "tr=" + tr
  {
    var url := WithTr(src, tr, None);
    var sep := if '?' in src then '&' else '?';
    assert url == src + [sep] + ("tr=" + tr);
    assert url[..|src|] == src;
  }

  /** When `new URL` succeeds, the query is rebuilt from the parsed parts:
      an existing query keeps its text (without its `?`) and gets `&tr=…`;
      an empty one becomes `tr=…`. Anything after `origin + pathname + search`,
      such as a fragment, is not carried over. */
  lemma WithTrParsed(src: string, tr: string, u: UrlParts)
    requires tr != ""
    ensures u.search == "" ==> WithTr(src, tr, Some(u)) == u.origin + u.pathname + "?tr=" + tr
    ensures StartsWith(u.search, "?") ==>
      WithTr(src, tr, Some(u)) == u.origin + u.pathname + u.search + "&tr=" + tr
  {
    if StartsWith(u.search, "?") {
      var q := StripLeading(u.search, '?');
      assert StartsWith(u.search, ['?']);
      assert u.search == "?" + q;
    }
  }

  /** `buildImageKitUrl`: `src` itself when the configuration pushes no token;
      otherwise a URL ending in `tr=` and the joined tokens, which, when `src`
      is not parsed, is `src` with the parameter appended and so never `src`. */
  lemma ImageKitUrlShape(src: string, config: TransformationConfig, parsed: Option<UrlParts>)
    ensures ConfigTokens(config) == [] ==> ImageKitUrl(src, config, parsed) == src
    ensures ConfigTokens(config) != [] ==>
      EndsWith(ImageKitUrl(src, config, parsed), "tr=" + Join(",", ConfigTokens(config)))
    ensures ConfigTokens(config) != [] && parsed.None? ==>
      StartsWith(ImageKitUrl(src, config, parsed), src) && |ImageKitUrl(src, config, parsed)| > |src|
  {
    TrStringIsJoin(config);
    if ConfigTokens(config) != [] {
      WithTrSuffix(src, TrString(config), parsed);
      if parsed.None? {
        WithTrFallback(src, TrString(config));
      }
    }
  }

}
