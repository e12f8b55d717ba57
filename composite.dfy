/**
 * generateCompositeImage: the control flow of the image pipeline. The browser
 * raster work and the two remote model calls are not modelled; their outcomes
 * are values of an `Environment` handed to the pipeline.
 */
module Composite {
  import opened Wrappers
  import opened JsMath
  import Positioning
  import ImageGeometry
  import Lighting
  import DataUrl

  /** The side of the square images sent to the model. */
  const MaxDimension: nat := 1024

  /** The placement description used when the description call fails. */
  const FallbackDescription: string := "at the specified location."

  const NoImageReturned: string := "The AI model did not return an image. Please try again."

  /** The MIME type of the JPEG files the resize and mark steps produce. */
  const Jpeg: string := "image/jpeg"

  /** One part of a model response. */
  datatype Part = Part(text: Option<string>, inlineData: Option<DataUrl.InlineData>)

  datatype Content = Content(parts: Option<seq<Part>>)

  datatype Candidate = Candidate(content: Option<Content>)

  /** The response of the image model, with the optional chain the code walks. */
  datatype Response = Response(candidates: Option<seq<Candidate>>)

  /** The outcome of the description call: its text, or a thrown error. */
  datatype DescribeOutcome = Described(text: string) | DescribeFailed

  /**
   * What the browser and the remote model produce along the way.
   * `sceneDimensions` is the decoded scene's natural size or the error that
   * rejected getImageDimensions; `rasterError` is the first error of the
   * resize, mark and analyse steps; the `...Jpeg` strings are the base64
   * payloads of the resized product, the resized scene and the marked scene;
   * `resizedScene` is the resized scene's pixels; `compose` is the image
   * call's response or the error it threw; `crop` is the cropped data URL or
   * the error of the crop step.
   */
  datatype Environment = Environment(
    sceneDimensions: Result<Positioning.Size, string>,
    rasterError: Option<string>,
    productJpeg: string,
    sceneJpeg: string,
    markedJpeg: string,
    resizedScene: Lighting.Raster,
    describe: DescribeOutcome,
    compose: Result<Response, string>,
    crop: Result<string, string>)

  /** A decoded image has a positive size, and the resized scene is a MaxDimension square. */
  predicate WellFormed(env: Environment)
  {
    && (env.sceneDimensions.Ok? ==> env.sceneDimensions.value.width > 0.0 && env.sceneDimensions.value.height > 0.0)
    && Lighting.ValidRaster(env.resizedScene)
    && env.resizedScene.width == MaxDimension && env.resizedScene.height == MaxDimension
    && ',' !in env.productJpeg && ',' !in env.sceneJpeg && ',' !in env.markedJpeg
  }

  /** What the final prompt is built from: its template wording is not modelled. */
  datatype CompositePrompt = CompositePrompt(lightingHint: string, placementDescription: string, scalePercent: int)

  /** The crop applied to the generated square image. */
  datatype CroppedImage = CroppedImage(source: string, plan: ImageGeometry.CropPlan, dataUrl: string)

  /** The debug image is the marked scene; `marker` is the circle drawn on it. */
  datatype GenerationResult = GenerationResult(finalImage: CroppedImage, debugImageUrl: string, marker: ImageGeometry.Marker,
                                               finalPrompt: CompositePrompt)

  /** `parts.find(part => part.inlineData)`: the first part that carries inline data. */
  function FindImagePart(parts: seq<Part>): (p: Option<Part>)
    ensures p.Some? ==> p.value.inlineData.Some? && p.value in parts
    ensures p.None? <==> forall i :: 0 <= i < |parts| ==> parts[i].inlineData.None?
  {
    if |parts| == 0 then None
    else if parts[0].inlineData.Some? then Some(parts[0])
    else FindImagePart(parts[1..])
  }

  /** The part found is the first with inline data: every part before it has none. */
  lemma {:induction false} FindImagePartIsFirst(parts: seq<Part>)
    requires FindImagePart(parts).Some?
    ensures exists i :: 0 <= i < |parts| && parts[i] == FindImagePart(parts).value
                        && forall j :: 0 <= j < i ==> parts[j].inlineData.None?
  {
    if parts[0].inlineData.None? {
      FindImagePartIsFirst(parts[1..]);
      var i :| 0 <= i < |parts[1..]| && parts[1..][i] == FindImagePart(parts[1..]).value
               && forall j :: 0 <= j < i ==> parts[1..][j].inlineData.None?;
      assert parts[i + 1] == FindImagePart(parts).value;
      assert forall j :: 1 <= j < i + 1 ==> parts[j] == parts[1..][j - 1];
    } else {
      assert parts[0] == FindImagePart(parts).value;
    }
  }

  /** `response.candidates?.[0]?.content?.parts?.find(part => part.inlineData)`. */
  function ImagePart(response: Response): (p: Option<Part>)
    ensures p.Some? ==> p.value.inlineData.Some?
  {
    match response.candidates
    case None => None
    case Some(candidates) =>
      if |candidates| == 0 then None
      else
        match candidates[0].content
        case None => None
        case Some(content) =>
          match content.parts
          case None => None
          case Some(parts) => FindImagePart(parts)
  }

  /** The data URL FileReader.readAsDataURL makes of a JPEG file. */
  function JpegDataUrl(payload: string): string
  {
    DataUrl.InlineImageUrl(DataUrl.InlineData(Jpeg, payload))
  }

  /** The JPEG files the pipeline sends are read back as image/jpeg parts with their payloads. */
  lemma JpegPartsParse(payload: string)
    requires ',' !in payload
    ensures DataUrl.FileToPart(JpegDataUrl(payload)) == Ok(DataUrl.InlineData(Jpeg, payload))
  {
    JpegIsPlain();
    DataUrl.FileToPartInvertsUrl(DataUrl.InlineData(Jpeg, payload));
  }

  lemma JpegIsPlain()
    ensures DataUrl.PlainMimeType(Jpeg)
  {
    assert forall k :: 0 <= k < |Jpeg| ==> 'a' <= Jpeg[k] <= 'z' || Jpeg[k] == '/';
  }

  /**
   * The pipeline: scene size, resize, mark, lighting analysis, best-effort
   * description, the image call, and the crop back to the scene's aspect ratio.
   */
  method GenerateCompositeImage(env: Environment, dropPosition: Positioning.RelativePosition, scaleFactor: real)
    returns (r: Result<GenerationResult, string>)
    requires WellFormed(env)
    ensures env.sceneDimensions.Err? ==> r == Err(env.sceneDimensions.error)
    ensures env.sceneDimensions.Ok? && env.rasterError.Some? ==> r == Err(env.rasterError.value)
    ensures env.sceneDimensions.Ok? && env.rasterError.None? && env.compose.Err? ==> r == Err(env.compose.error)
    ensures env.sceneDimensions.Ok? && env.rasterError.None? && env.compose.Ok? && ImagePart(env.compose.value).None?
            ==> r == Err(NoImageReturned)
    ensures (env.sceneDimensions.Ok? && env.rasterError.None? && env.compose.Ok? && ImagePart(env.compose.value).Some?
             && env.crop.Err?) ==> r == Err(env.crop.error)
    ensures r.Ok? <==> env.sceneDimensions.Ok? && env.rasterError.None? && env.compose.Ok?
                       && ImagePart(env.compose.value).Some? && env.crop.Ok?
    ensures r.Ok? ==>
              var size := env.sceneDimensions.value;
              var image := ImagePart(env.compose.value).value.inlineData.value;
              && r.value.finalImage == CroppedImage(DataUrl.InlineImageUrl(image),
                   ImageGeometry.CropToOriginalAspectRatio(size.width, size.height, MaxDimension), env.crop.value)
              && r.value.debugImageUrl == JpegDataUrl(env.markedJpeg)
              && r.value.marker == ImageGeometry.MarkImage(dropPosition, size.width, size.height, MaxDimension, MaxDimension)
              && r.value.marker.center == ImageGeometry.AnalysisCentre(dropPosition, size.width, size.height, MaxDimension)
              && r.value.finalPrompt.placementDescription
                 == (if env.describe.Described? then env.describe.text else FallbackDescription)
              && r.value.finalPrompt.scalePercent == Round(scaleFactor * 100.0)
              && var w := Lighting.SampleWindow(dropPosition, size.width, size.height, MaxDimension);
                 r.value.finalPrompt.lightingHint
                 == Lighting.LightingHint(Lighting.GetImageData(env.resizedScene, w.x, w.y, w.side, w.side), w.side)
  {
    if env.sceneDimensions.Err? {
      return Err(env.sceneDimensions.error);
    }
    var originalWidth, originalHeight := env.sceneDimensions.value.width, env.sceneDimensions.value.height;
    if env.rasterError.Some? {
      return Err(env.rasterError.value);
    }
    var marker := ImageGeometry.MarkImage(dropPosition, originalWidth, originalHeight, MaxDimension, MaxDimension);
    ImageGeometry.MarkerAndAnalysisAgree(dropPosition, originalWidth, originalHeight, MaxDimension, MaxDimension);
    var debugImageUrl := JpegDataUrl(env.markedJpeg);
    var localLightingHint := Lighting.AnalyzeLocalLighting(env.resizedScene, dropPosition, originalWidth, originalHeight);

    var semanticLocationDescription := "";
    match env.describe {
      case Described(text) =>
        semanticLocationDescription := text;
      case DescribeFailed =>
        semanticLocationDescription := FallbackDescription;
    }

    JpegPartsParse(env.productJpeg);
    JpegPartsParse(env.sceneJpeg);
    JpegPartsParse(env.markedJpeg);
    var scalePercent := Round(scaleFactor * 100.0);
    var prompt := CompositePrompt(localLightingHint, semanticLocationDescription, scalePercent);

    if env.compose.Err? {
      return Err(env.compose.error);
    }
    var imagePartFromResponse := ImagePart(env.compose.value);
    if imagePartFromResponse.Some? {
      var generatedSquareImageUrl := DataUrl.InlineImageUrl(imagePartFromResponse.value.inlineData.value);
      var plan := ImageGeometry.CropToOriginalAspectRatio(originalWidth, originalHeight, MaxDimension);
      if env.crop.Err? {
        return Err(env.crop.error);
      }
      var finalImage := CroppedImage(generatedSquareImageUrl, plan, env.crop.value);
      return Ok(GenerationResult(finalImage, debugImageUrl, marker, prompt));
    }
    return Err(NoImageReturned);
  }
}
