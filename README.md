# ImageKit transformation string builder — a Dafny model

This project models how the media studio turns a transformation configuration
into an ImageKit URL. The configuration is built by the studio's panels. The
modelled code is the encoder in `src/lib/transformation-utils.ts`.

- **Category encoders.** Each one turns one part of the configuration into
  `key-value` tokens:
  - basics (image and video);
  - enhancements (image and video);
  - AI magic (image only);
  - overlays (image and video);
  - audio (video only).
- **`buildTrString`.** Concatenates the encoders' tokens in a fixed order for
  each media type. It drops empty strings and joins the rest with `,`.
  - IMAGE order: basics, enhancements, AI, overlays.
  - VIDEO order: basics, enhancements, overlays, audio.
- **`buildImageKitUrl`.** Adds `tr=<string>` to the query of the source URL. It
  goes through the parsed URL when the URL constructor accepts the source, and
  falls back to plain concatenation when it throws.

Modules, one per encoder:

| module | file | models |
|---|---|---|
| `Config` | `config.dfy` | the configuration records, one optional record per category |
| `Fields` | `fields.dfy` | JavaScript truthiness, template rendering, and the repeated "push `key-value` when the test passes" step |
| `Numbers` | `numbers.dfy` | integer rendering and the `N`-prefixed form of negative values |
| `Text` | `text.dfy` | `join`, `split`, `filter(Boolean)`, `replace(/^#/, "")`, `padEnd`, and the `moments/` path regex |
| `BasicsEncoder` | `basics.dfy` | `basicsToParams`, `videoBasicsToParams` |
| `EnhancementsEncoder` | `enhancements.dfy` | `enhancementsToParams`, `videoEnhancementsToParams` |
| `AiEncoder` | `ai.dfy` | `aiToParams` |
| `AudioEncoder` | `audio.dfy` | `audioToParams` |
| `OverlaysEncoder` | `overlays.dfy` | `overlaysToParams`, `videoOverlaysToParams` |
| `CategoryKeys` | `categories.dfy` | which keys and initial letters each category can push |
| `TransformationBuilder` | `builder.dfy` | `buildTrString`, `buildImageKitUrl` |

How the code is modelled:

- **Pure encoders.** Encoders that only compute are functions.
- **Loops.** The two overlay encoders and `buildTrString` push onto a list in a
  loop or a chain of `if`s. They are methods, each proved equal to a
  specification function.
- **Configuration values.**
  - A scalar is `Num(int)` or `Str(string)`.
  - `if (v)` is `Truthy`: defined and neither `0` nor `""`.
  - `if (v !== undefined)` is `Some?`.
- **Parsing the source URL.** `new URL(src)` is a parameter
  `parsed: Option<UrlParts>`. `None` stands for the constructor throwing.

Points where the code's behaviour is easy to misread:

- **Colour normalisation.** `replace(/^#/, "")` removes one leading `#`, so
  `##FF0000` becomes `#FF0000` (`Text.StripHashOnce`).
- **Background-colour padding.** The image overlay's background colour is
  padded with `0` on the right (`padEnd`), so `F00` becomes `F00000`.
- **Unknown overlay types.**
  - An image overlay of an unknown type adds no group at all.
  - A video overlay of an unknown type still adds a group: its position and
    timing, then `l-end`.
- **The `cm-` default.** It is injected "only if no crop-mode token has been
  emitted yet". Only filter, flag, shadow and size tokens can come before it,
  and none of them starts with `c`. So the test always passes, and exactly one
  `cm-` token is pushed.
- **The gradient overlay.** It pushes `e-gradient-…` even when no component is
  set, which leaves the bare token `e-gradient-`. The enhancement gradient
  drops the token in that case.
- **The AI drop shadow.** It always pushes its own `e-removedotbg` first. So a
  configuration that both removes the background and asks for a drop shadow
  carries two removal tokens.

## Model

| member | source | states |
|---|---|---|
| `Numbers.IntToStringRoundTrip` | src/lib/transformation-utils.ts:19-29 | An integer rendered in a template literal is digits, with a minus sign exactly when negative, and reads back to the same integer |
| `Numbers.NSigned` | src/lib/transformation-utils.ts:230-237 | The `N` form of an offset never contains `-` and starts with `N` exactly when the value is negative |
| `Numbers.NSignedRoundTrip` | src/lib/transformation-utils.ts:230-237 | The `N` form (`N<abs>` for a negative value, the plain digits otherwise) reads back to the value it encodes |
| `Text.StripHash` | src/lib/transformation-utils.ts:76 | `replace(/^#/, "")` leaves a suffix of the colour, one character shorter exactly when the colour starts with `#` |
| `Text.StripHashOnce` | src/lib/transformation-utils.ts:119 | Only one `#` is removed: `##FF0000` becomes `#FF0000`, and a colour without `#` is unchanged |
| `Text.StripLeading` | src/lib/transformation-utils.ts:473 | `search.replace(/^\?/, "")` leaves a suffix of the query, one character shorter exactly when it starts with `?` |
| `Text.PadEnd` | src/lib/transformation-utils.ts:119 | `padEnd(6, "0")` keeps the string as its prefix, reaches length 6 when shorter, and fills only with the pad character |
| `Text.ExtractMomentsPath` | src/lib/transformation-utils.ts:57 | `src.match(/\/(moments\/.+)$/)?.[1] ?? src`: the whole source when nothing matches, otherwise the text after the leftmost matching `/` |
| `Text.ExtractedPathShape` | src/lib/transformation-utils.ts:109 | A matched path starts with `moments/` and has at least one character after it |
| `Text.MomentsPathExamples` | src/lib/transformation-utils.ts:65 | `/moments/a.png` gives `moments/a.png`; a bare `/moments/` and a path ending in a line break are passed through unchanged |
| `Text.FilterNonEmpty` | src/lib/transformation-utils.ts:458 | `filter(Boolean)` keeps exactly the non-empty strings, in order: every kept string is non-empty, the result is a subsequence of the input, every non-empty input string is kept, and the result is shorter than the input by the number of empty strings |
| `Text.FilterAppend` | src/lib/transformation-utils.ts:458 | `filter(Boolean)` on a concatenation is the concatenation of the filtered parts |
| `Text.FilterKeepsNonEmpty` | src/lib/transformation-utils.ts:458 | On a list without empty strings `filter(Boolean)` changes nothing |
| `Text.SplitJoin` | src/lib/transformation-utils.ts:156 | Splitting on `_` undoes `join("_")` when no part contains `_` |
| `Fields.EmitAllTokens` | src/lib/transformation-utils.ts:19-29 | A run of `if (test) push(key-value)` pushes a token exactly when it is the token of a field whose test passes |
| `Fields.EmitAllInOrder` | src/lib/transformation-utils.ts:19-29 | A run of `if (test) push(...)` pushes in the order the tests are written: the pushed tokens are the fields' tokens with the failing ones left out |
| `Fields.EmitAllKeys` | src/lib/transformation-utils.ts:19-29 | With distinct dash-free keys, the pushed keys are the written keys in order with the failing ones left out, and each key is present exactly when its test passes |
| `Fields.EmitAllEmpty` | src/lib/transformation-utils.ts:239 | A run of conditional pushes pushes nothing exactly when no test passes |
| `BasicsEncoder.ImageBasicsKeyAt` | src/lib/transformation-utils.ts:17-31 | Each image basics field's key is pushed exactly when its test passes, and then as `key-value` |
| `BasicsEncoder.BasicsFieldOrder` | src/lib/transformation-utils.ts:17-31 | Image basics keys follow w, h, ar, c, fo, z, dpr, x, y, xc, yc whatever subset is set |
| `BasicsEncoder.BasicsTruthyFields` | src/lib/transformation-utils.ts:19-25 | Width, height, aspect ratio, crop mode, focus and dpr are pushed exactly when truthy; width and height as `w-<v>`, `h-<v>` |
| `BasicsEncoder.BasicsDefinedFields` | src/lib/transformation-utils.ts:24-29 | Zoom, x, y, xc and yc are pushed exactly when defined, `0` included |
| `BasicsEncoder.BasicsZeroWidthAndZoom` | src/lib/transformation-utils.ts:19-24 | A zero width is dropped while a zero zoom is pushed as `z-0` |
| `BasicsEncoder.VideoBasicsKeyAt` | src/lib/transformation-utils.ts:33-45 | Each video basics field's key is pushed exactly when its test passes, and then as `key-value` |
| `BasicsEncoder.VideoBasicsFieldOrder` | src/lib/transformation-utils.ts:33-45 | Video basics keys follow w, h, ar, c, fo, rt, b, r, bg whatever subset is set |
| `BasicsEncoder.VideoBasicsTruthyFields` | src/lib/transformation-utils.ts:35-43 | Video width, height, aspect ratio, crop mode, focus, border and background are pushed exactly when truthy |
| `BasicsEncoder.VideoBasicsDefinedFields` | src/lib/transformation-utils.ts:40-42 | Rotate and radius are pushed exactly when defined, `0` included, as `rt-<v>` and `r-<v>` |
| `EnhancementsEncoder.FilterTokensExact` | src/lib/transformation-utils.ts:211-220 | The filter tokens are exactly those of blur and sharpen when truthy and of the six others when defined, in the written order `bl`, `e-sharpen`, `e-contrast`, `e-brightness`, `e-saturation`, `e-gamma`, `e-hue`, `e-vibrance` |
| `EnhancementsEncoder.ZeroContrastKept` | src/lib/transformation-utils.ts:213 | A zero contrast is pushed as `e-contrast-0` |
| `EnhancementsEncoder.FalsyBlurDropped` | src/lib/transformation-utils.ts:211-220 | A falsy blur pushes nothing, so every filter token is then an `e-` token |
| `EnhancementsEncoder.ShadowKeyAt` | src/lib/transformation-utils.ts:228-237 | Each shadow component is among the parts exactly when defined, and then as `key-value` |
| `EnhancementsEncoder.ShadowPresence` | src/lib/transformation-utils.ts:227-239 | The shadow has parts exactly when some component is defined |
| `EnhancementsEncoder.ShadowKeysOrder` | src/lib/transformation-utils.ts:227-237 | Shadow parts keep the order bl, st, x, y; blur and saturation are present exactly when defined |
| `EnhancementsEncoder.ShadowOffsets` | src/lib/transformation-utils.ts:230-237 | Each defined offset is pushed as `x-`/`y-` followed by its `N` form |
| `EnhancementsEncoder.ShadowComponents` | src/lib/transformation-utils.ts:225-242 | One `e-shadow-<parts joined by _>` token exactly when some component is defined, with the order, presence and `N` offsets above |
| `EnhancementsEncoder.BackgroundTokens` | src/lib/transformation-utils.ts:249-250 | The background's pushes begin with its own `w-`/`h-` tokens |
| `EnhancementsEncoder.NoCropModeIn` | src/lib/transformation-utils.ts:255 | A list in which no token starts with `c` holds no `cm-` token, so `parts.some(startsWith("cm-"))` is false |
| `EnhancementsEncoder.LeadingInitials` | src/lib/transformation-utils.ts:211-242 | No filter, flag or shadow token starts with `c` |
| `EnhancementsEncoder.BlurredBackgroundTokens` | src/lib/transformation-utils.ts:249-276 | A blurred background after tokens without a crop mode pushes its size, `cm-pad_resize` and the blurred token |
| `EnhancementsEncoder.DominantBackgroundTokens` | src/lib/transformation-utils.ts:286-293 | A dominant background after tokens without a crop mode pushes its size, `cm-pad_extract` and `bg-dominant` |
| `EnhancementsEncoder.OtherBackgroundTokens` | src/lib/transformation-utils.ts:245-299 | A background of any other type pushes only its own `w-` and `h-` tokens |
| `EnhancementsEncoder.BackgroundPrefixes` | src/lib/transformation-utils.ts:245-299 | Every background push, of any type and after any earlier tokens, starts with `w-`, `h-`, `cm-`, `bg-` or `e-brightness-` |
| `EnhancementsEncoder.SolidBackgroundTokens` | src/lib/transformation-utils.ts:249-298 | A solid background pushes exactly its size tokens, then `bg-<colour>` with one leading `#` removed when the colour is truthy, then `e-brightness-<v>` in plain form when the brightness is defined |
| `EnhancementsEncoder.SolidNegativeBrightness` | src/lib/transformation-utils.ts:296-298 | A solid brightness of `-5` is pushed as `e-brightness--5`, with its minus sign, not in the `N` form |
| `EnhancementsEncoder.BlurredBackgroundDefaults` | src/lib/transformation-utils.ts:245-276 | A blurred background: its size, then `cm-pad_resize` right after it and the blurred token; the only `cm-` token of the list, once |
| `EnhancementsEncoder.DominantBackgroundDefaults` | src/lib/transformation-utils.ts:245-293 | A dominant background: its size, then `cm-pad_extract` right after it and `bg-dominant`; the only `cm-` token of the list, once |
| `EnhancementsEncoder.OtherBackgroundNoCropMode` | src/lib/transformation-utils.ts:278-298 | A solid, other or absent background adds no `cm-` token |
| `EnhancementsEncoder.BlurredTokenShape` | src/lib/transformation-utils.ts:259-275 | The blurred token is `bg-blurred_<intensity>`, followed by `_<brightness in N form>` exactly when a brightness is given, and that form reads back to the brightness |
| `EnhancementsEncoder.BlurredTokenAuto` | src/lib/transformation-utils.ts:263 | An unset or falsy intensity reads `auto` |
| `EnhancementsEncoder.GradientKeyAt` | src/lib/transformation-utils.ts:305-309 | Each gradient component is among the parts exactly when its test passes, and then as `key-value` |
| `EnhancementsEncoder.GradientPresence` | src/lib/transformation-utils.ts:302-314 | The `e-gradient-` token is pushed exactly when some component is set |
| `EnhancementsEncoder.GradientComponents` | src/lib/transformation-utils.ts:304-309 | Gradient parts keep the order ld, from, to, sp; direction and stop point are present exactly when defined |
| `EnhancementsEncoder.GradientColours` | src/lib/transformation-utils.ts:306-308 | The colours are present exactly when truthy, without their leading `#` |
| `EnhancementsEncoder.TrimmingKeyAt` | src/lib/transformation-utils.ts:323-328 | Each trimming field's key is pushed exactly when defined, and then as `key-value` |
| `EnhancementsEncoder.TrimmingFieldTests` | src/lib/transformation-utils.ts:323-328 | Trimming keys follow so, eo, du; each is present exactly when defined, `0` included |
| `EnhancementsEncoder.ThumbnailKeyAt` | src/lib/transformation-utils.ts:331-346 | Each thumbnail field's key is pushed exactly when its test passes, and then as `key-value` |
| `EnhancementsEncoder.ThumbnailFieldOrder` | src/lib/transformation-utils.ts:331-346 | Thumbnail keys follow so, w, h, ar, the crop key, fo, b, bg, r |
| `EnhancementsEncoder.ThumbnailKeysFrom` | src/lib/transformation-utils.ts:331-346 | A key outside that list is never pushed by the thumbnail |
| `EnhancementsEncoder.ThumbnailPadCropMode` | src/lib/transformation-utils.ts:337-339 | Crop mode `extract` or `pad_resize` is pushed as `cm-<mode>`, with no `c-` token |
| `EnhancementsEncoder.ThumbnailOtherCropMode` | src/lib/transformation-utils.ts:337-341 | Any other non-empty crop mode is pushed as `c-<mode>`, with no `cm-` token |
| `EnhancementsEncoder.ThumbnailFieldTests` | src/lib/transformation-utils.ts:333-345 | Time and radius are pushed exactly when defined; width and height exactly when truthy |
| `EnhancementsEncoder.ThumbnailBorder` | src/lib/transformation-utils.ts:343 | The border is pushed exactly when present |
| `EnhancementsEncoder.ThumbnailBorderToken` | src/lib/transformation-utils.ts:343 | The border token is `b-<width>_<color>` |
| `AiEncoder.GenFillNoEffect` | src/lib/transformation-utils.ts:365-374 | The generative-fill tokens (`bg-genfill…`, size, crop mode) never start with `e` |
| `AiEncoder.BackgroundRestNoRemoval` | src/lib/transformation-utils.ts:361-374 | Nothing after the removal slot is `e-bgremove` or `e-removedotbg` |
| `AiEncoder.RemovalExactlyOne` | src/lib/transformation-utils.ts:356-375 | With `remove`, exactly one removal token comes first, `e-bgremove` exactly when the mode is `economy`; without it, none |
| `AiEncoder.DropShadowAfterRemoval` | src/lib/transformation-utils.ts:385-397 | A drop shadow is pushed right after its own `e-removedotbg`, following the background and editing tokens |
| `AiEncoder.DropShadowSeparators` | src/lib/transformation-utils.ts:392-396 | Each drop-shadow component brings its own separator (`-az-`, `_el-`, `_st-`) and they come in that order: with none the token is `e-dropshadow`, azimuth comes first and elevation after it, and with all three set the token is `e-dropshadow-az-<a>_el-<e>_st-<s>` |
| `AiEncoder.CroppingFocus` | src/lib/transformation-utils.ts:408-416 | Cropping pushes at most one `fo-` token, first: `fo-auto`, `fo-face`, or `fo-<object>` for a named object |
| `AudioEncoder.AudioTokensExact` | src/lib/transformation-utils.ts:422-434 | `ac-none` exactly when muted, `vc-none` exactly when extracting audio, mute first, nothing else |
| `OverlaysEncoder.TypographyFlags` | src/lib/transformation-utils.ts:151-154 | The flag list is empty exactly when no typography flag is set |
| `OverlaysEncoder.TypographyTokens` | src/lib/transformation-utils.ts:151-157 | At most one `tg-` token, present exactly when some flag is set |
| `OverlaysEncoder.TypographyAllFlags` | src/lib/transformation-utils.ts:151-157 | With every flag set the token is `tg-b_i_strikethrough` |
| `OverlaysEncoder.TypographyOrder` | src/lib/transformation-utils.ts:151-156 | The flags keep the order b, i, strikethrough, and the `tg-` value splits back on `_` into them |
| `OverlaysEncoder.TextBodyTypography` | src/lib/transformation-utils.ts:140-160 | In a text overlay only the typography token starts with `tg-` |
| `OverlaysEncoder.TextTypographyCount` | src/lib/transformation-utils.ts:137-164 | A text overlay carries one `tg-` parameter when some flag is set and none otherwise |
| `OverlaysEncoder.GradientOverlayUnconditional` | src/lib/transformation-utils.ts:166-179 | The overlay's `e-gradient-` token is always third, even with no component, unlike the enhancement gradient which is then dropped |
| `OverlaysEncoder.ImageLayerParamKeys` | src/lib/transformation-utils.ts:105-135 | An image layer group is `l-image`, `i-<path>`, its field tokens, `l-end`; its field keys come from w, h, x, y, bg, b, r, rt, fl |
| `OverlaysEncoder.ImageLayerKeyIn` | src/lib/transformation-utils.ts:112-131 | Each image layer field's key is in the group exactly when its test passes |
| `OverlaysEncoder.ImageLayerTokenIn` | src/lib/transformation-utils.ts:112-131 | Each image layer field whose test passes has its `key-value` token in the group |
| `OverlaysEncoder.ImageLayerPosition` | src/lib/transformation-utils.ts:114-115 | Image overlays carry `x`/`y` exactly when defined |
| `OverlaysEncoder.ImageLayerPositionTokens` | src/lib/transformation-utils.ts:114-115 | The position tokens are `x-<x>` and `y-<y>` |
| `OverlaysEncoder.ImageLayerNoLayerPosition` | src/lib/transformation-utils.ts:105-135 | Image overlays never carry `lx`/`ly` |
| `OverlaysEncoder.ImageLayerBackgroundColour` | src/lib/transformation-utils.ts:118-121 | The background colour is pushed exactly when truthy, without one `#` and right-padded with `0` to six characters |
| `OverlaysEncoder.ImageLayerBorder` | src/lib/transformation-utils.ts:124-127 | The border is pushed exactly when truthy, without one `#` |
| `OverlaysEncoder.ImageLayerGroup` | src/lib/transformation-utils.ts:105-135 | An image overlay adds one group, which starts with `l-image,i-<path>` and ends with `,l-end` |
| `OverlaysEncoder.TextLayerGroup` | src/lib/transformation-utils.ts:137-164 | A text overlay adds one group, which starts with `l-text,i-<text>` and ends with `,l-end` |
| `OverlaysEncoder.CanvasLayerGroup` | src/lib/transformation-utils.ts:166-199 | A gradient or solid overlay adds one group, which starts with `l-image,i-ik_canvas` and ends with `,l-end` |
| `OverlaysEncoder.ImageGroupShape` | src/lib/transformation-utils.ts:104-200 | Exactly the four known types add a group, each opened by its layer and input and closed by `l-end`; an unknown type adds nothing |
| `OverlaysEncoder.KnownOverlays` | src/lib/transformation-utils.ts:104-200 | The overlays that add a group: none of unknown type, and all of them when every type is known |
| `OverlaysEncoder.OverlaysToParams` | src/lib/transformation-utils.ts:101-203 | The `forEach` loop returns the groups of the overlays in list order |
| `OverlaysEncoder.OverlaysTokensMap` | src/lib/transformation-utils.ts:101-203 | The groups are the joined parameters of the known overlays, in list order |
| `OverlaysEncoder.OverlaysTokensByKnown` | src/lib/transformation-utils.ts:101-203 | One group per known overlay; the j-th group is the j-th known overlay's parameters joined with `,` |
| `OverlaysEncoder.VideoOverlaysToParams` | src/lib/transformation-utils.ts:49-99 | The `forEach` loop returns one joined group per video overlay, in list order |
| `OverlaysEncoder.VideoLayerOpening` | src/lib/transformation-utils.ts:54-86 | Known layers open with `l-image`/`l-video`/`l-text` and `i-` followed by the extracted path, the text, or `ik_canvas` for solid; an unknown type opens with nothing |
| `OverlaysEncoder.VideoLayerFieldKeys` | src/lib/transformation-utils.ts:60-85 | A video layer's own field keys are dash-free and none starts with `l`, `x` or `y` |
| `OverlaysEncoder.VideoLayerKeys` | src/lib/transformation-utils.ts:54-86 | Apart from `l` and `i`, a video layer pushes no key starting with `l`, `x` or `y` |
| `OverlaysEncoder.PlacementKeyAt` | src/lib/transformation-utils.ts:89-93 | Each placement field's key is pushed exactly when defined, and then as `key-value` |
| `OverlaysEncoder.VideoOverlayKeys` | src/lib/transformation-utils.ts:49-96 | A video group's keys are the layer's, then the placement's (from lx, ly, so, eo, du), then `l` for `l-end` |
| `OverlaysEncoder.PlacementKeyIn` | src/lib/transformation-utils.ts:89-93 | `lx` and `ly` are in the group exactly when their fields are defined |
| `OverlaysEncoder.VideoOverlayPosition` | src/lib/transformation-utils.ts:89-90 | Video overlays carry `lx`/`ly` exactly when x/y are defined |
| `OverlaysEncoder.VideoOverlayPositionTokens` | src/lib/transformation-utils.ts:89-90 | The position tokens are `lx-<x>` and `ly-<y>` |
| `OverlaysEncoder.VideoOverlayNoImagePosition` | src/lib/transformation-utils.ts:49-96 | Video overlays never carry bare `x`/`y` |
| `OverlaysEncoder.PlacementTokenIn` | src/lib/transformation-utils.ts:89-93 | Every defined position or timing field has its token in the group |
| `OverlaysEncoder.PlacementEmpty` | src/lib/transformation-utils.ts:89-93 | No position or timing is pushed exactly when all five are undefined |
| `OverlaysEncoder.UnknownVideoOverlay` | src/lib/transformation-utils.ts:51-96 | An unknown video overlay still yields its placement and `l-end`, or just `l-end` |
| `OverlaysEncoder.VideoGroupShape` | src/lib/transformation-utils.ts:52-96 | Every video group ends with `l-end`; a known layer's group opens with its layer token and input |
| `OverlaysEncoder.VideoOverlaysOnePerOverlay` | src/lib/transformation-utils.ts:49-99 | Exactly one group per video overlay, the j-th group from the j-th overlay |
| `CategoryKeys.ImageBasicsInitials` | src/lib/transformation-utils.ts:17-31 | Image basics tokens start with a, c, d, f, h, w, x, y or z |
| `CategoryKeys.ImageBasicsKeysFrom` | src/lib/transformation-utils.ts:17-31 | A key outside the basics list is never pushed by the image basics |
| `CategoryKeys.EnhancementsInitials` | src/lib/transformation-utils.ts:207-317 | Image enhancement tokens start with b, c, e, h or w |
| `CategoryKeys.BackgroundInitials` | src/lib/transformation-utils.ts:245-299 | Every background push starts with `b`, `c`, `e`, `h` or `w` |
| `CategoryKeys.AiInitials` | src/lib/transformation-utils.ts:353-419 | AI tokens start with b, c, e, f, h, w or z |
| `CategoryKeys.OverlaysInitials` | src/lib/transformation-utils.ts:101-203 | Every image overlay group starts with `l` |
| `CategoryKeys.VideoBasicsKeysFrom` | src/lib/transformation-utils.ts:33-45 | A key outside the video basics list is never pushed by the video basics |
| `CategoryKeys.VideoEnhancementsKeysFrom` | src/lib/transformation-utils.ts:319-349 | Video enhancements push trimming and thumbnail keys only |
| `CategoryKeys.KnownVideoOpening` | src/lib/transformation-utils.ts:54-86 | A known video layer's group opens with an `l-` token |
| `CategoryKeys.UnknownVideoOpening` | src/lib/transformation-utils.ts:88-95 | An unknown video layer's group opens with a placement token or `l-end` |
| `CategoryKeys.VideoGroupKey` | src/lib/transformation-utils.ts:49-99 | A video group's key is `l` or, for an unknown type, a placement key |
| `CategoryKeys.VideoOverlaysKeysFrom` | src/lib/transformation-utils.ts:49-99 | Video overlay groups carry the key `l` or a placement key, nothing else |
| `TransformationBuilder.BuildTrString` | src/lib/transformation-utils.ts:438-459 | The method returns the pushes (IMAGE: basics, enhancements, AI, overlays; VIDEO: basics, enhancements, overlays, audio), filtered and joined with `,` |
| `TransformationBuilder.ConfigTokensNoneEmpty` | src/lib/transformation-utils.ts:438-456 | No category ever pushes an empty string |
| `TransformationBuilder.TrStringIsJoin` | src/lib/transformation-utils.ts:458 | `filter(Boolean)` removes nothing, and the string is empty exactly when no token was pushed |
| `TransformationBuilder.EmptyConfig` | src/lib/transformation-utils.ts:438-466 | With no category present the string is empty and the URL is `src` unchanged |
| `TransformationBuilder.ImageTrStringEmpty` | src/lib/transformation-utils.ts:441-458 | An IMAGE string is empty exactly when every category pushes nothing |
| `TransformationBuilder.VideoTrStringEmpty` | src/lib/transformation-utils.ts:449-458 | A VIDEO string is empty exactly when every category pushes nothing |
| `TransformationBuilder.ImageOverlaysLast` | src/lib/transformation-utils.ts:441-447 | IMAGE: the overlay groups come last and are the only tokens starting with `l`; in the string they follow the rest after one `,` |
| `TransformationBuilder.VideoAudioLast` | src/lib/transformation-utils.ts:449-456 | VIDEO: the audio tokens come last and are the only `ac`/`vc` tokens |
| `TransformationBuilder.ImageExcludesAudio` | src/lib/transformation-utils.ts:441-447 | IMAGE never pushes an `ac` or `vc` token |
| `TransformationBuilder.VideoExcludesAi` | src/lib/transformation-utils.ts:449-456 | VIDEO never pushes an `e-` token, so none of the AI effects |
| `TransformationBuilder.WithTrSuffix` | src/lib/transformation-utils.ts:465-478 | With a non-empty string, the URL ends with `tr=<string>` right after a `?` or `&` |
| `TransformationBuilder.ParsedSuffix` | src/lib/transformation-utils.ts:468-476 | Through the parsed URL, the URL ends with `tr=<string>` right after a `?` or `&` |
| `TransformationBuilder.FallbackSuffix` | src/lib/transformation-utils.ts:478 | Through the fallback, the URL ends with `tr=<string>` right after a `?` or `&` |
| `TransformationBuilder.WithTrFallback` | src/lib/transformation-utils.ts:477-479 | When parsing throws: `src`, then `&` exactly when `src` holds a `?` (otherwise `?`), then `tr=<string>` |
| `TransformationBuilder.WithTrParsed` | src/lib/transformation-utils.ts:468-476 | When parsing succeeds: origin and path, then `?tr=<string>` for an empty query, or the query followed by `&tr=<string>` |
| `TransformationBuilder.ImageKitUrlShape` | src/lib/transformation-utils.ts:461-480 | `buildImageKitUrl` returns `src` itself when no token is pushed, and otherwise a URL ending in `tr=` and the joined tokens; when `new URL` throws, that URL is `src` with the parameter appended, so strictly longer than `src` |

## Left out

- Fractional numbers are not modelled. A scalar is an integer or a string, so JavaScript's rendering of a non-integer number and `Math.abs` of a fractional offset are out of scope. A fractional value is represented by its rendered text as a `Str`.
- The workings of `new URL(src)` are not modelled. Its result enters as the parameter `parsed`: how origin, path and query are normalised or percent-encoded is not modelled. As in the code, any fragment after the query is dropped.
- Numbers.IntToStringRoundTrip: states decimal digits for every integer. JavaScript writes a number whose magnitude is at least 10^21 in exponential form (`1e+21`, and `N1e+21` in the `N` form), and it cannot hold integers above 2^53 exactly. The model does not capture either limit, and neither does `Numbers.NSignedRoundTrip`.
- Text.PadEnd: counts length in Dafny characters (Unicode scalar values). JavaScript's `padEnd` counts UTF-16 code units, so a colour string holding a character outside the Basic Multilingual Plane is padded with one `0` fewer in JavaScript than in the model.
- TransformationBuilder.ImageKitUrlShape: does not state that the URL differs from `src` when `new URL` succeeds. In that branch the URL is rebuilt from the parsed origin, path and query. These enter the model as the parameter `parsed` and are not related to `src`.
- TransformationBuilder.WithTrParsed: states the URL only for a query that is empty or begins with `?`. These are the two forms a parsed URL's query takes.
- The regular expression `/\/(moments\/.+)$/` is modelled as a leftmost scan for the marker. The scan keeps the rule that `.` does not match a line terminator. Other regex engine behaviour is not modelled.
- The code does not percent-encode prompts, text or paths, and neither does the model.
- The configuration's TypeScript type declarations are not part of this model. Field types follow how the encoder uses each field: a field compared with `0` is an integer, and a field compared with string constants is a string. Fields the encoder never reads are left out.
- Pushing onto a JavaScript array is modelled as reassigning a sequence. There is no aliasing to model, because each array is local to its function.
- The studio panels, authentication, persistence, uploads and every file other than `src/lib/transformation-utils.ts` are not part of this model.
