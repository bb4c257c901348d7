/** The transformation configuration the studio panels build: one optional
    record per category, with the image and video vocabularies kept apart.
    An absent field is `None`; a boolean flag that is absent reads as `false`. */
module Config {

  import opened Wrappers
  import opened Fields

  /* ---------------- basics ---------------- */

  datatype ImageBasics = ImageBasics(
    width: Option<Val>, height: Option<Val>, aspectRatio: Option<Val>, cropMode: Option<Val>,
    focus: Option<Val>, zoom: Option<Val>, dpr: Option<Val>,
    x: Option<Val>, y: Option<Val>, xc: Option<Val>, yc: Option<Val>)

  datatype VideoBasics = VideoBasics(
    width: Option<Val>, height: Option<Val>, aspectRatio: Option<Val>, cropMode: Option<Val>,
    focus: Option<Val>, rotate: Option<Val>, border: Option<Val>, radius: Option<Val>,
    background: Option<Val>)

  /* ---------------- image enhancements ---------------- */

  /** Offsets are compared with 0, so they are numbers. */
  datatype Shadow = Shadow(
    blur: Option<Val>, saturation: Option<Val>, offsetX: Option<int>, offsetY: Option<int>)

  /** `background.type`; `OtherBackground` stands for any other value or none. */
  datatype BackgroundType = Blurred | SolidBackground | Dominant | OtherBackground

  /** Brightness is compared with 0, so it is a number. */
  datatype Background = Background(
    kind: BackgroundType, width: Option<Val>, height: Option<Val>,
    blurIntensity: Option<Val>, brightness: Option<int>, color: Option<string>)

  /** The four gradient components, shared by the enhancement and the overlay. */
  datatype Gradient = Gradient(
    direction: Option<Val>, fromColor: Option<string>, toColor: Option<string>,
    stopPoint: Option<Val>)

  datatype ImageEnhancements = ImageEnhancements(
    blur: Option<Val>, sharpen: Option<Val>, contrast: Option<Val>, brightness: Option<Val>,
    saturation: Option<Val>, gamma: Option<Val>, hue: Option<Val>, vibrance: Option<Val>,
    grayscale: bool, sepia: bool,
    shadow: Option<Shadow>, background: Option<Background>, gradient: Option<Gradient>)

  /* ---------------- video enhancements ---------------- */

  datatype Trimming = Trimming(startOffset: Option<Val>, endOffset: Option<Val>, duration: Option<Val>)

  datatype Border = Border(width: Val, color: Val)

  /** The crop mode is compared with string constants, so it is a string. */
  datatype Thumbnail = Thumbnail(
    time: Option<Val>, width: Option<Val>, height: Option<Val>, aspectRatio: Option<Val>,
    cropMode: Option<string>, focus: Option<Val>, border: Option<Border>, bg: Option<Val>,
    radius: Option<Val>)

  datatype VideoEnhancements = VideoEnhancements(trimming: Option<Trimming>, thumbnail: Option<Thumbnail>)

  /* ---------------- AI magic (image only) ---------------- */

  datatype GenerativeFill = GenerativeFill(
    prompt: Option<string>, width: Option<Val>, height: Option<Val>, cropMode: Option<Val>)

  datatype AiBackground = AiBackground(
    remove: bool, mode: Option<string>, changePrompt: Option<string>,
    generativeFill: Option<GenerativeFill>)

  datatype Editing = Editing(prompt: Option<string>, retouch: bool, upscale: bool)

  datatype DropShadow = DropShadow(azimuth: Option<Val>, elevation: Option<Val>, saturation: Option<Val>)

  datatype ShadowLighting = ShadowLighting(dropShadow: Option<DropShadow>)

  datatype Generation = Generation(textPrompt: Option<string>, variation: bool)

  /** `cropping.type`; `OtherCrop` stands for any other value or none. */
  datatype CropType = Smart | Face | ObjectCrop | OtherCrop

  datatype Cropping = Cropping(
    kind: CropType, objectName: Option<string>, zoom: Option<Val>,
    width: Option<Val>, height: Option<Val>)

  datatype AiMagic = AiMagic(
    background: Option<AiBackground>, editing: Option<Editing>,
    shadowLighting: Option<ShadowLighting>, generation: Option<Generation>,
    cropping: Option<Cropping>)

  /* ---------------- overlays ---------------- */

  /** An image overlay, by its `type`; `UnknownLayer` is any other type. */
  datatype ImageOverlay =
    | ImageLayer(
        src: string, width: Option<Val>, height: Option<Val>, x: Option<Val>, y: Option<Val>,
        bgColor: Option<string>, border: Option<string>, radius: Option<Val>,
        rotation: Option<Val>, flip: Option<Val>)
    | TextLayer(
        text: string, fontSize: Option<Val>, fontFamily: Option<Val>, color: Option<string>,
        backgroundColor: Option<string>, padding: Option<Val>, align: Option<Val>,
        bold: bool, italic: bool, strike: bool, rotation: Option<Val>, flip: Option<Val>)
    | GradientLayer(gradient: Gradient, width: Option<Val>, height: Option<Val>, radius: Option<Val>)
    | SolidLayer(
        color: Option<string>, width: Option<Val>, height: Option<Val>,
        opacity: Option<Val>, radius: Option<Val>)
    | UnknownLayer

  /** The type-specific part of a video overlay; `VideoUnknown` is any other type. */
  datatype VideoLayer =
    | VideoImage(src: string, width: Option<Val>, height: Option<Val>)
    | VideoClip(src: string, width: Option<Val>, height: Option<Val>)
    | VideoText(
        text: string, fontSize: Option<Val>, fontFamily: Option<Val>, color: Option<string>,
        padding: Option<Val>)
    | VideoSolid(color: Option<string>, width: Option<Val>, height: Option<Val>, radius: Option<Val>)
    | VideoUnknown

  /** A video overlay: its layer plus the position and timing every type shares. */
  datatype VideoOverlay = VideoOverlay(
    layer: VideoLayer, x: Option<Val>, y: Option<Val>,
    startOffset: Option<Val>, endOffset: Option<Val>, duration: Option<Val>)

  /* ---------------- audio (video only) ---------------- */

  datatype Audio = Audio(mute: bool, extractAudio: bool)

  /* ---------------- the whole configuration ---------------- */

  datatype ImageConfig = ImageConfig(
    basics: Option<ImageBasics>, enhancements: Option<ImageEnhancements>,
    ai: Option<AiMagic>, overlays: Option<seq<ImageOverlay>>)

  datatype VideoConfig = VideoConfig(
    basics: Option<VideoBasics>, enhancements: Option<VideoEnhancements>,
    overlays: Option<seq<VideoOverlay>>, audio: Option<Audio>)

  /** Tagged by `type`: `IMAGE` or `VIDEO`. */
  datatype TransformationConfig = Image(image: ImageConfig) | Video(video: VideoConfig)

}
