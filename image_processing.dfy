/** The feature extractor and evidence formatter of the crop-image pipeline
    (`ImageProcessingService` in app/services/image_processing.py).

    A decoded image is a row-major raster of 8-bit BGR pixels. Everything
    OpenCV computes from it (the HSV and grayscale projections, the standard
    deviations, the contour areas of the edge map, the Laplacian variance
    and the k-means outcome) enters the model as a given `Primitives` value,
    or as the message those calls raised;
    the model computes what the service itself computes from those outputs:
    means, mask shares, the contour filter and average, the dimensions, the
    quality labels, the palette cast and the evidence text. */
module ImageProcessing {
  import opened Wrappers
  import opened Stats
  import opened Text

  datatype Bgr = Bgr(b: Byte, g: Byte, r: Byte)

  datatype Hsv = Hsv(h: Byte, s: Byte, v: Byte)

  /** What `cv2.imdecode(..., IMREAD_COLOR)` returns for a buffer that
      decodes: `rows` is `shape[0]`, `cols` is `shape[1]`. */
  datatype Raster = Raster(rows: nat, cols: nat, pixels: seq<Bgr>)

  /** A floating-point cluster centre in BGR order. */
  datatype Center = Center(b: real, g: real, r: real)

  /** The outcome of `cv2.kmeans`: it either raised or returned centres. */
  datatype Clustering = ClusteringFailed | Centers(centers: seq<Center>)

  datatype ChannelStd = ChannelStd(b: real, g: real, r: real)

  /** The outputs of the OpenCV and numpy primitives for one raster. */
  datatype Primitives = Primitives(
    hsv: seq<Hsv>,             // cvtColor(image, COLOR_BGR2HSV)
    gray: seq<Byte>,           // cvtColor(image, COLOR_BGR2GRAY)
    stdBgr: ChannelStd,        // np.std(image, axis=(0, 1))
    grayStd: real,             // np.std(gray)
    contourAreas: seq<real>,   // contourArea of each contour of Canny(gray, 50, 150)
    laplacianVariance: real,   // Laplacian(gray, CV_64F).var()
    clustering: Clustering     // kmeans(pixels, k = 5, ...)
  )

  const DominantColorCount: nat := 5
  const MinSpotArea: real := 10.0
  const BrownYellowLower: Hsv := Hsv(10, 50, 50)
  const BrownYellowUpper: Hsv := Hsv(40, 255, 255)
  const DarkLower: Byte := 0
  const DarkUpper: Byte := 80
  const DecodeFailure: string := "Failed to decode image"
  const ExtractErrorPrefix: string := "Error extracting crop context: "

  /** The primitives belong to the raster: one projection value per pixel,
      and k-means, when it succeeds, returns k centres. */
  predicate WellFormed(img: Raster, lib: Primitives)
  {
    && img.rows > 0 && img.cols > 0
    && |img.pixels| == img.rows * img.cols
    && |lib.hsv| == |img.pixels|
    && |lib.gray| == |img.pixels|
    && (lib.clustering.Centers? ==> |lib.clustering.centers| == DominantColorCount)
  }

  // ---------------------------------------------------------------------
  // The descriptor

  datatype Dimensions = Dimensions(width: nat, height: nat, totalPixels: nat)

  datatype ColorStatistics = ColorStatistics(
    meanBgr: seq<real>, stdBgr: seq<real>,
    greenChannelMean: real, greenChannelStd: real, greenPercentage: real)

  datatype HealthIndicators = HealthIndicators(
    potentialSpotsCount: nat, averageSpotSize: real, textureVariance: real,
    brightness: real, contrast: real,
    brownYellowPercentage: real, darkSpotsPercentage: real)

  datatype ColorAnalysis = ColorAnalysis(
    hueMean: real, saturationMean: real, valueMean: real,
    dominantColorsBgr: seq<seq<int>>)

  datatype QualityMetrics = QualityMetrics(
    sharpnessScore: real, overallBrightness: string, colorRichness: string)

  /** The dictionary built by `extract_crop_context`. */
  datatype CropContext = CropContext(
    imageDimensions: Dimensions,
    colorStatistics: ColorStatistics,
    healthIndicators: HealthIndicators,
    colorAnalysis: ColorAnalysis,
    qualityMetrics: QualityMetrics)

  predicate IsPercentage(x: real)
  {
    0.0 <= x <= 100.0
  }

  predicate IsChannelMean(x: real)
  {
    0.0 <= x <= 255.0
  }

  /** The invariant every descriptor of a decoded image satisfies. */
  predicate Sound(ctx: CropContext)
  {
    var d := ctx.imageDimensions;
    var c := ctx.colorStatistics;
    var h := ctx.healthIndicators;
    var a := ctx.colorAnalysis;
    var q := ctx.qualityMetrics;
    && d.width > 0 && d.height > 0 && d.totalPixels == d.width * d.height
    && |c.meanBgr| == 3 && |c.stdBgr| == 3
    && (forall i :: 0 <= i < 3 ==> IsChannelMean(c.meanBgr[i]))
    && c.greenChannelMean == c.meanBgr[1] && c.greenChannelStd == c.stdBgr[1]
    && IsPercentage(c.greenPercentage)
    && (h.averageSpotSize == 0.0 || h.averageSpotSize > MinSpotArea)
    && IsChannelMean(h.brightness)
    && IsPercentage(h.brownYellowPercentage) && IsPercentage(h.darkSpotsPercentage)
    && IsChannelMean(a.hueMean) && IsChannelMean(a.saturationMean) && IsChannelMean(a.valueMean)
    && (|a.dominantColorsBgr| == 0 || |a.dominantColorsBgr| == DominantColorCount)
    && (forall i :: 0 <= i < |a.dominantColorsBgr| ==> |a.dominantColorsBgr[i]| == 3)
    && q.sharpnessScore == h.textureVariance
    && (q.overallBrightness == "good" <==> 50.0 < h.brightness < 200.0)
    && (q.overallBrightness == "good" || q.overallBrightness == "poor")
    && (q.colorRichness == "good" <==> a.saturationMean > 50.0)
    && (q.colorRichness == "good" || q.colorRichness == "low")
  }

  // ---------------------------------------------------------------------
  // Channels and masks

  function Blue(p: Bgr): Byte { p.b }
  function Green(p: Bgr): Byte { p.g }
  function Red(p: Bgr): Byte { p.r }
  function Hue(p: Hsv): Byte { p.h }
  function Saturation(p: Hsv): Byte { p.s }
  function Value(p: Hsv): Byte { p.v }
  function Intensity(g: Byte): Byte { g }

  /** `cv2.inRange` on a three-channel pixel: inclusive on every channel. */
  predicate InRangeHsv(p: Hsv, lo: Hsv, hi: Hsv)
  {
    lo.h <= p.h <= hi.h && lo.s <= p.s <= hi.s && lo.v <= p.v <= hi.v
  }

  predicate IsBrownYellow(p: Hsv)
  {
    InRangeHsv(p, BrownYellowLower, BrownYellowUpper)
  }

  /** `cv2.inRange(gray, 0, 80)` on one pixel. */
  predicate IsDark(g: Byte)
  {
    DarkLower <= g <= DarkUpper
  }

  /** The share, in percent, of pixels inside the brown/yellow HSV band. */
  function BrownYellowPercentage(hsv: seq<Hsv>): (p: real)
    requires |hsv| > 0
    ensures IsPercentage(p)
    ensures p == 100.0 <==> forall i :: 0 <= i < |hsv| ==> IsBrownYellow(hsv[i])
    ensures p == 0.0 <==> forall i :: 0 <= i < |hsv| ==> !IsBrownYellow(hsv[i])
  {
    CountAll(hsv, IsBrownYellow);
    CountNone(hsv, IsBrownYellow);
    Percentage(Count(hsv, IsBrownYellow), |hsv|)
  }

  /** The share, in percent, of pixels whose intensity is at most 80. */
  function DarkSpotsPercentage(gray: seq<Byte>): (p: real)
    requires |gray| > 0
    ensures IsPercentage(p)
    ensures p == 100.0 <==> forall i :: 0 <= i < |gray| ==> IsDark(gray[i])
    ensures p == 0.0 <==> forall i :: 0 <= i < |gray| ==> !IsDark(gray[i])
  {
    CountAll(gray, IsDark);
    CountNone(gray, IsDark);
    Percentage(Count(gray, IsDark), |gray|)
  }

  /** `(green_mean / 255.0) * 100`: a byte mean scaled to a percentage. */
  function GreenPercentage(greenMean: real): (p: real)
    requires IsChannelMean(greenMean)
    ensures IsPercentage(p)
    ensures p * 255.0 == greenMean * 100.0
  {
    (greenMean / 255.0) * 100.0
  }

  // ---------------------------------------------------------------------
  // Contours

  /** `np.mean` of the contour areas above 10, or 0 when there are none:
      the value is the mean of exactly those areas. */
  function AverageSpotSize(areas: seq<real>): (avg: real)
    ensures avg == 0.0 <==> forall x :: x in areas ==> x <= MinSpotArea
    ensures avg > MinSpotArea <==> exists x :: x in areas && x > MinSpotArea
    ensures avg == MeanOrZero(Above(areas, MinSpotArea))
  {
    var sizes := Above(areas, MinSpotArea);
    if sizes == [] then MeanOrZero(sizes)
    else
      assert sizes[0] in sizes;
      MeanAbove(sizes, MinSpotArea);
      MeanOrZero(sizes)
  }

  /** A contour of area 5 is ignored and the other two are averaged. */
  lemma AverageSpotSizeExample()
    ensures AverageSpotSize([5.0, 20.0, 40.0]) == 30.0
  {
    var areas := [5.0, 20.0, 40.0];
    assert areas[1..] == [20.0, 40.0] && areas[1..][1..] == [40.0] && areas[1..][1..][1..] == [];
    assert Above(areas, MinSpotArea) == [20.0, 40.0];
    var sizes := [20.0, 40.0];
    assert sizes[1..] == [40.0] && sizes[1..][1..] == [];
    assert SumReal(sizes) == 60.0;
  }

  // ---------------------------------------------------------------------
  // Quality labels

  function BrightnessLabel(brightness: real): (rating: string)
    ensures rating == "good" || rating == "poor"
    ensures rating == "good" <==> 50.0 < brightness < 200.0
  {
    if 50.0 < brightness < 200.0 then "good" else "poor"
  }

  function RichnessLabel(saturationMean: real): (rating: string)
    ensures rating == "good" || rating == "low"
    ensures rating == "good" <==> saturationMean > 50.0
  {
    if saturationMean > 50.0 then "good" else "low"
  }

  // ---------------------------------------------------------------------
  // Dominant colours

  /** One centre cast with `astype(int)`, as the list `[b, g, r]`. */
  function CastCenter(c: Center): (color: seq<int>)
    ensures |color| == 3
    ensures IsTruncation(c.b, color[0]) && IsTruncation(c.g, color[1]) && IsTruncation(c.r, color[2])
  {
    [TruncateToInt(c.b), TruncateToInt(c.g), TruncateToInt(c.r)]
  }

  /** `_extract_dominant_colors`: the empty palette when clustering raises,
      otherwise every centre with each component truncated toward zero. */
  function DominantColors(c: Clustering): (palette: seq<seq<int>>)
    ensures c.ClusteringFailed? ==> palette == []
    ensures c.Centers? ==> |palette| == |c.centers|
    ensures c.Centers? ==> forall i :: 0 <= i < |palette| ==>
      |palette[i]| == 3
      && IsTruncation(c.centers[i].b, palette[i][0])
      && IsTruncation(c.centers[i].g, palette[i][1])
      && IsTruncation(c.centers[i].r, palette[i][2])
  {
    match c
    case ClusteringFailed => []
    case Centers(cs) => seq(|cs|, i requires 0 <= i < |cs| => CastCenter(cs[i]))
  }

  predicate InByteRange(x: real)
  {
    0.0 <= x < 256.0
  }

  /** Centres inside the colour cube give palette entries that are bytes. */
  lemma PaletteOfByteCentersIsBytes(cs: seq<Center>)
    requires forall i :: 0 <= i < |cs| ==>
      InByteRange(cs[i].b) && InByteRange(cs[i].g) && InByteRange(cs[i].r)
    ensures forall i, j :: 0 <= i < |cs| && 0 <= j < 3 ==>
      0 <= DominantColors(Centers(cs))[i][j] < 256
  {
  }

  // ---------------------------------------------------------------------
  // extract_crop_context

  /** The descriptor of a decoded raster. */
  function Describe(img: Raster, lib: Primitives): (ctx: CropContext)
    requires WellFormed(img, lib)
    ensures Sound(ctx)
    ensures ctx.imageDimensions.width == img.cols
    ensures ctx.imageDimensions.height == img.rows
    ensures ctx.imageDimensions.totalPixels == |img.pixels|
    ensures ctx.healthIndicators.potentialSpotsCount == |lib.contourAreas|
    ensures ctx.healthIndicators.textureVariance == lib.laplacianVariance
    ensures ctx.healthIndicators.contrast == lib.grayStd
    ensures ctx.colorAnalysis.dominantColorsBgr == [] <==> lib.clustering.ClusteringFailed?
    ensures ctx.colorAnalysis.dominantColorsBgr == DominantColors(lib.clustering)
    ensures ctx.healthIndicators.brownYellowPercentage == BrownYellowPercentage(lib.hsv)
    ensures ctx.healthIndicators.darkSpotsPercentage == DarkSpotsPercentage(lib.gray)
    ensures ctx.healthIndicators.averageSpotSize == AverageSpotSize(lib.contourAreas)
    ensures ctx.colorStatistics.meanBgr == [MeanBy(img.pixels, Blue), MeanBy(img.pixels, Green), MeanBy(img.pixels, Red)]
    ensures ctx.colorStatistics.greenPercentage == GreenPercentage(MeanBy(img.pixels, Green))
    ensures ctx.colorStatistics.stdBgr == [lib.stdBgr.b, lib.stdBgr.g, lib.stdBgr.r]
    ensures ctx.healthIndicators.brightness == MeanBy(lib.gray, Intensity)
    ensures ctx.colorAnalysis.hueMean == MeanBy(lib.hsv, Hue)
    ensures ctx.colorAnalysis.saturationMean == MeanBy(lib.hsv, Saturation)
    ensures ctx.colorAnalysis.valueMean == MeanBy(lib.hsv, Value)
  {
    var greenMean := MeanBy(img.pixels, Green);
    var brightness := MeanBy(lib.gray, Intensity);
    var saturationMean := MeanBy(lib.hsv, Saturation);
    CropContext(
      Dimensions(img.cols, img.rows, img.rows * img.cols),
      ColorStatistics(
        [MeanBy(img.pixels, Blue), greenMean, MeanBy(img.pixels, Red)],
        [lib.stdBgr.b, lib.stdBgr.g, lib.stdBgr.r],
        greenMean, lib.stdBgr.g, GreenPercentage(greenMean)),
      HealthIndicators(
        |lib.contourAreas|, AverageSpotSize(lib.contourAreas), lib.laplacianVariance,
        brightness, lib.grayStd,
        BrownYellowPercentage(lib.hsv), DarkSpotsPercentage(lib.gray)),
      ColorAnalysis(
        MeanBy(lib.hsv, Hue), saturationMean, MeanBy(lib.hsv, Value),
        DominantColors(lib.clustering)),
      QualityMetrics(
        lib.laplacianVariance, BrightnessLabel(brightness), RichnessLabel(saturationMean)))
  }

  /** What `cv2.imdecode` does with the uploaded buffer: it yields an image,
      returns `None`, or raises with its own message (an empty buffer, for
      one). */
  datatype Decoded = Image(raster: Raster) | NoImage | DecodeRaised(message: string)

  /** `extract_crop_context`. Every failure inside its `try` is re-raised
      under the service's prefix: `None` from the decoder as "Failed to
      decode image", a decoder exception or a failure of the later OpenCV
      calls (`lib` is `Err`) with its own message. Otherwise the result is
      the sound descriptor of the decoded image. */
  function ExtractCropContext(decoded: Decoded, lib: Result<Primitives, string>): (r: Result<CropContext, string>)
    requires decoded.Image? && lib.Ok? ==> WellFormed(decoded.raster, lib.value)
    ensures r.Ok? <==> decoded.Image? && lib.Ok?
    ensures decoded.NoImage? ==> r == Err("Error extracting crop context: Failed to decode image")
    ensures decoded.DecodeRaised? ==> r == Err(ExtractErrorPrefix + decoded.message)
    ensures decoded.Image? && lib.Err? ==> r == Err(ExtractErrorPrefix + lib.error)
    ensures r.Ok? ==> Sound(r.value)
    ensures r.Ok? ==> r.value.imageDimensions.width == decoded.raster.cols
    ensures r.Ok? ==> r.value.imageDimensions.height == decoded.raster.rows
    ensures r.Ok? ==> r.value == Describe(decoded.raster, lib.value)
  {
    match decoded
    case NoImage =>
      assert ExtractErrorPrefix + DecodeFailure == "Error extracting crop context: Failed to decode image";
      WithPrefix(ExtractErrorPrefix, Err(DecodeFailure))
    case DecodeRaised(m) => WithPrefix(ExtractErrorPrefix, Err(m))
    case Image(img) =>
      match lib
      case Err(m) => WithPrefix(ExtractErrorPrefix, Err(m))
      case Ok(prims) => WithPrefix(ExtractErrorPrefix, Ok(Describe(img, prims)))
  }

  /** The brown/yellow share is 100 times the number of "on" pixels of the
      `inRange(hsv, (10, 50, 50), (40, 255, 255))` mask over the pixel count. */
  lemma BrownYellowIsMaskShare(img: Raster, lib: Primitives)
    requires WellFormed(img, lib)
    ensures Describe(img, lib).healthIndicators.brownYellowPercentage
      == 100.0 * (|Matching(lib.hsv, IsBrownYellow)| as real) / ((img.rows * img.cols) as real)
  {
    PercentageOfMatching(lib.hsv, IsBrownYellow);
  }

  /** The dark-spot share is 100 times the number of "on" pixels of the
      `inRange(gray, 0, 80)` mask over the pixel count. */
  lemma DarkSpotsIsMaskShare(img: Raster, lib: Primitives)
    requires WellFormed(img, lib)
    ensures Describe(img, lib).healthIndicators.darkSpotsPercentage
      == 100.0 * (|Matching(lib.gray, IsDark)| as real) / ((img.rows * img.cols) as real)
  {
    PercentageOfMatching(lib.gray, IsDark);
  }

  /** On an image of one colour every channel mean is that colour's channel,
      so the green percentage is its green value scaled to 100. */
  lemma UniformImageMeans(img: Raster, lib: Primitives, color: Bgr)
    requires WellFormed(img, lib)
    requires forall i :: 0 <= i < |img.pixels| ==> img.pixels[i] == color
    ensures Describe(img, lib).colorStatistics.meanBgr == [color.b as real, color.g as real, color.r as real]
    ensures Describe(img, lib).colorStatistics.greenPercentage == color.g as real / 255.0 * 100.0
  {
    MeanOfUniform(img.pixels, Blue, color.b);
    MeanOfUniform(img.pixels, Green, color.g);
    MeanOfUniform(img.pixels, Red, color.r);
  }

  // ---------------------------------------------------------------------
  // format_context_for_llm

  const ImageHeader: string := "Image Analysis Context:"
  const HealthHeader: string := "Health Indicators:"
  const ColorHeader: string := "Color Analysis:"
  const ClosingRequest: string :=
    "Based on these technical measurements, please analyze the crop health, identify any diseases or issues, and provide recommendations."

  /** `- Image size: {width}x{height} pixels` */
  function SizeLine(d: Dimensions): string
  {
    "- Image size: " + NatToString(d.width) + "x" + NatToString(d.height) + " pixels\n"
  }

  /** `- Potential spots detected: {count}` */
  function SpotCountLine(h: HealthIndicators): string
  {
    "- Potential spots detected: " + NatToString(h.potentialSpotsCount) + "\n"
  }

  /** The image lines after the size line; `fmt` renders a number with `:.1f`. */
  function ImageMetrics(ctx: CropContext, fmt: real -> string): string
  {
    "- Green content: " + fmt(ctx.colorStatistics.greenPercentage) + "% (chlorophyll indicator)\n"
    + "- Brightness: " + fmt(ctx.healthIndicators.brightness) + "/255 (" + ctx.qualityMetrics.overallBrightness + ")\n"
    + "- Contrast: " + fmt(ctx.healthIndicators.contrast) + "\n"
    + "- Sharpness: " + fmt(ctx.qualityMetrics.sharpnessScore) + "\n"
    + "\n"
  }

  /** The health lines after the spot-count line. */
  function HealthMetrics(ctx: CropContext, fmt: real -> string): string
  {
    "- Average spot size: " + fmt(ctx.healthIndicators.averageSpotSize) + " pixels\n"
    + "- Brown/yellow areas: " + fmt(ctx.healthIndicators.brownYellowPercentage) + "% (possible disease/stress)\n"
    + "- Dark spots: " + fmt(ctx.healthIndicators.darkSpotsPercentage) + "% (possible necrosis)\n"
    + "\n"
  }

  /** The colour lines and the closing request. */
  function ColorLines(ctx: CropContext, fmt: real -> string): string
  {
    "\n- Saturation: " + fmt(ctx.colorAnalysis.saturationMean) + "/255 (" + ctx.qualityMetrics.colorRichness + ")\n"
    + "- Hue mean: " + fmt(ctx.colorAnalysis.hueMean) + "\n"
    + "\n"
    + ClosingRequest + "\n"
  }

  /** The three section headers occur in this order. */
  predicate HeadersInOrder(text: string)
  {
    exists i, j, k | 0 <= i <= |text| && 0 <= j <= |text| && 0 <= k <= |text| ::
      i < j < k && OccursAt(text, ImageHeader, i) && OccursAt(text, HealthHeader, j) && OccursAt(text, ColorHeader, k)
  }

  /** `format_context_for_llm`: a fixed layout of a subset of the
      descriptor, `fmt` standing for Python's `:.1f` rendering. */
  function FormatContextForLlm(ctx: CropContext, fmt: real -> string): (text: string)
    ensures StartsWith(text, "\n" + ImageHeader + "\n" + SizeLine(ctx.imageDimensions))
    ensures HeadersInOrder(text)
    ensures Contains(text, SpotCountLine(ctx.healthIndicators))
  {
    var size, images := SizeLine(ctx.imageDimensions), ImageMetrics(ctx, fmt);
    var spots, health := SpotCountLine(ctx.healthIndicators), HealthMetrics(ctx, fmt);
    var colors := ColorLines(ctx, fmt);
    EvidenceLayout(size, images, spots, health, colors);
    "\n" + ImageHeader + ("\n" + size + images) + HealthHeader + ("\n" + spots + health) + ColorHeader + colors
  }

  /** Where the headers, the size line and the spot-count line sit in the
      evidence layout, whatever the rendered numbers are. */
  lemma EvidenceLayout(size: string, images: string, spots: string, health: string, colors: string)
    ensures var text := "\n" + ImageHeader + ("\n" + size + images) + HealthHeader + ("\n" + spots + health) + ColorHeader + colors;
      && StartsWith(text, "\n" + ImageHeader + "\n" + size)
      && HeadersInOrder(text)
      && Contains(text, spots)
  {
    var imageBody, healthBody := "\n" + size + images, "\n" + spots + health;
    var a := "\n" + ImageHeader;
    var b := a + imageBody + HealthHeader;
    var c := b + healthBody + ColorHeader;
    var text := c + colors;

    OccursAfterPrefix("\n", ImageHeader);
    OccursAtExtend(a, ImageHeader, 1, imageBody);
    OccursAtExtend(a + imageBody, ImageHeader, 1, HealthHeader);
    OccursAtExtend(b, ImageHeader, 1, healthBody);
    OccursAtExtend(b + healthBody, ImageHeader, 1, ColorHeader);
    OccursAtExtend(c, ImageHeader, 1, colors);

    var j := |a + imageBody|;
    OccursAfterPrefix(a + imageBody, HealthHeader);
    OccursAtExtend(b, HealthHeader, j, healthBody);
    OccursAtExtend(b + healthBody, HealthHeader, j, ColorHeader);
    OccursAtExtend(c, HealthHeader, j, colors);

    var k := |b + healthBody|;
    OccursAfterPrefix(b + healthBody, ColorHeader);
    OccursAtExtend(c, ColorHeader, k, colors);
    assert 1 < j < k;

    var s := |b| + 1;
    OccursAfterPrefix("\n", spots);
    OccursAtExtend("\n" + spots, spots, 1, health);
    OccursShift(b, healthBody, spots, 1);
    OccursAtExtend(b + healthBody, spots, s, ColorHeader);
    OccursAtExtend(c, spots, s, colors);

    var start := a + "\n" + size;
    assert StartsWith(start, start);
    StartsWithExtend(start, start, images);
    assert start + images == a + imageBody;
    StartsWithExtend(a + imageBody, start, HealthHeader);
    StartsWithExtend(b, start, healthBody);
    StartsWithExtend(b + healthBody, start, ColorHeader);
    StartsWithExtend(c, start, colors);
  }

  /** The evidence text does not depend on the fields it does not render:
      the pixel total, the BGR means and deviations, the green-channel mean
      and deviation, the texture variance, the value mean and the palette. */
  lemma FormatIgnoresUnrenderedFields(ctx: CropContext, fmt: real -> string,
      totalPixels: nat, meanBgr: seq<real>, stdBgr: seq<real>, greenMean: real, greenStd: real,
      textureVariance: real, valueMean: real, palette: seq<seq<int>>)
    ensures
      var other := ctx.(
        imageDimensions := ctx.imageDimensions.(totalPixels := totalPixels),
        colorStatistics := ctx.colorStatistics.(meanBgr := meanBgr, stdBgr := stdBgr,
          greenChannelMean := greenMean, greenChannelStd := greenStd),
        healthIndicators := ctx.healthIndicators.(textureVariance := textureVariance),
        colorAnalysis := ctx.colorAnalysis.(valueMean := valueMean, dominantColorsBgr := palette));
      FormatContextForLlm(other, fmt) == FormatContextForLlm(ctx, fmt)
  {
  }
}
