/**
 * The application session: which jewelry and scene are loaded, the state of
 * the last generation, the jewelry scale, and the touch drag state. The
 * handlers change these fields in sequence; the image pipeline they call is an
 * outcome handed in as a parameter, and each handler returns the request it
 * made of the pipeline, if any.
 */
module Session {
  import opened Wrappers
  import opened JsMath
  import JsFormat
  import Positioning
  import TouchDnD

  /** A file the user picked, or one rebuilt from a generated image's data URL. */
  datatype File = Picked(name: string, mimeType: string) | FromDataUrl(dataUrl: string, name: string)

  /** The selected jewelry: a timestamp id, the file's name and an object URL for display. */
  datatype Product = Product(id: int, name: string, imageUrl: string)

  /** What a successful generation returns. */
  datatype Generated = Generated(finalImageUrl: string, debugImageUrl: string, finalPrompt: string)

  /** The arguments of one call of the image pipeline. */
  datatype GenerateRequest = GenerateRequest(
    productFile: File,
    productName: string,
    scene: File,
    sceneName: string,
    position: Positioning.RelativePosition,
    scale: real)

  const UnexpectedError: string := "An unexpected error occurred. Please try again."
  const GenerateFailed: string := "Failed to generate the image. "
  const AdjustFailed: string := "Failed to adjust size. "
  const ProductLoadFailed: string := "Could not load the jewelry image. Details: "

  const MinScale: real := 0.5
  const MaxScale: real := 2.0
  const DefaultScale: real := 1.0


  /** The files and product the user has loaded. */
  datatype Inputs = Inputs(
    selectedProduct: Option<Product>,
    productImageFile: Option<File>,
    sceneImage: Option<File>,
    originalSceneImage: Option<File>)

  /** What the last generation and drop left behind, and the jewelry scale; `resetGenerationState` clears all of it. */
  datatype Generation = Generation(
    persistedOrbPosition: Option<Positioning.Point>,
    debugImageUrl: Option<string>,
    debugPrompt: Option<string>,
    generatedSceneUrlForDownload: Option<string>,
    jewelryScale: real,
    lastDropRelativePosition: Option<Positioning.RelativePosition>)

  /** The loading flag, the error shown, and whether the debug modal is open. */
  datatype Status = Status(isLoading: bool, error: Option<string>, isDebugModalOpen: bool)

  /** Every state field of the session, in four groups. */
  datatype AppState = AppState(inputs: Inputs, generation: Generation, status: Status, touch: TouchDnD.TouchState)

  /** The generation fields as they start, and as `resetGenerationState` leaves them. */
  const FreshGeneration: Generation := Generation(None, None, None, None, DefaultScale, None)

  const Initial: AppState :=
    AppState(Inputs(None, None, None, None), FreshGeneration, Status(false, None, false), TouchDnD.Idle)

  /**
   * What every reachable state satisfies: the scale is in range, the jewelry
   * file and the product are loaded together, an original scene implies a
   * scene, a recorded drop implies both images, a download implies a recorded
   * drop, and the touch fields are consistent.
   */
  predicate Valid(s: AppState)
  {
    && MinScale <= s.generation.jewelryScale <= MaxScale
    && (s.inputs.productImageFile.Some? <==> s.inputs.selectedProduct.Some?)
    && (s.inputs.originalSceneImage.Some? ==> s.inputs.sceneImage.Some?)
    && (s.generation.lastDropRelativePosition.Some? ==> s.inputs.productImageFile.Some? && s.inputs.sceneImage.Some?)
    && (s.generation.generatedSceneUrlForDownload.Some? ==> s.generation.lastDropRelativePosition.Some?)
    && TouchDnD.Consistent(s.touch)
  }

  lemma InitialIsValid()
    ensures Valid(Initial)
  {
  }

  /** `generated-scene-${Date.now()}.jpeg`, rebuilt from the final image's data URL. */
  function GeneratedSceneFile(dataUrl: string, now: nat): (f: File)
    ensures f.FromDataUrl? && f.dataUrl == dataUrl
  {
    FromDataUrl(dataUrl, "generated-scene-" + JsFormat.ToString(now, 10) + ".jpeg")
  }

  /** `resetGenerationState`: forget the last generation and drop, and set the scale back to 1. */
  function ResetGeneration(s: AppState): (t: AppState)
    ensures t.generation.jewelryScale == DefaultScale
    ensures t.generation.persistedOrbPosition.None? && t.generation.debugImageUrl.None? && t.generation.debugPrompt.None?
    ensures t.generation.generatedSceneUrlForDownload.None? && t.generation.lastDropRelativePosition.None?
    ensures t.inputs == s.inputs && t.status == s.status && t.touch == s.touch
    ensures Valid(s) ==> Valid(t)
  {
    s.(generation := FreshGeneration)
  }

  /**
   * `handleProductImageUpload`: clears the error, then either loads the file
   * as the product (with a fresh object URL) and resets the generation, or
   * reports why the object URL could not be made.
   */
  function AfterProductUpload(s: AppState, file: File, objectUrl: Result<string, string>, now: int): (t: AppState)
    ensures objectUrl.Ok? ==> t.inputs.productImageFile == Some(file) && t.status.error.None?
                               && t.inputs.selectedProduct == Some(Product(now, file.name, objectUrl.value))
                               && t.generation == FreshGeneration
    ensures objectUrl.Err? ==> t == s.(status := s.status.(error := Some(ProductLoadFailed + objectUrl.error)))
    ensures t.inputs.sceneImage == s.inputs.sceneImage && t.inputs.originalSceneImage == s.inputs.originalSceneImage
    ensures Valid(s) ==> Valid(t)
  {
    var cleared := s.(status := s.status.(error := None));
    match objectUrl
    case Ok(url) =>
      ResetGeneration(cleared.(inputs := cleared.inputs.(productImageFile := Some(file),
                                                          selectedProduct := Some(Product(now, file.name, url)))))
    case Err(message) =>
      cleared.(status := cleared.status.(error := Some(ProductLoadFailed + message)))
  }

  /** `handleSceneImageUpload`: the file becomes both the scene and the original scene. */
  function AfterSceneUpload(s: AppState, file: File): (t: AppState)
    ensures t.inputs.sceneImage == Some(file) && t.inputs.originalSceneImage == Some(file)
    ensures t.generation == FreshGeneration
    ensures t.inputs.productImageFile == s.inputs.productImageFile && t.inputs.selectedProduct == s.inputs.selectedProduct
    ensures t.status == s.status
    ensures Valid(s) ==> Valid(t)
  {
    ResetGeneration(s.(inputs := s.inputs.(sceneImage := Some(file), originalSceneImage := Some(file))))
  }

  /**
   * The request `handleProductDrop` makes: none when the jewelry file, the
   * scene or the product is missing; otherwise at the current scale, on the
   * original scene when there is one and on the current scene otherwise.
   */
  function DropRequest(s: AppState, relative: Positioning.RelativePosition): (r: Option<GenerateRequest>)
    ensures r.None? <==> s.inputs.productImageFile.None? || s.inputs.sceneImage.None? || s.inputs.selectedProduct.None?
    ensures r.Some? ==>
              && r.value.productFile == s.inputs.productImageFile.value
              && r.value.productName == s.inputs.selectedProduct.value.name
              && r.value.scene == (if s.inputs.originalSceneImage.Some? then s.inputs.originalSceneImage.value else s.inputs.sceneImage.value)
              && r.value.sceneName == r.value.scene.name
              && r.value.position == relative
              && r.value.scale == s.generation.jewelryScale
  {
    var i := s.inputs;
    if i.productImageFile.None? || i.sceneImage.None? || i.selectedProduct.None? then None
    else
      var baseScene := if i.originalSceneImage.Some? then i.originalSceneImage.value else i.sceneImage.value;
      Some(GenerateRequest(i.productImageFile.value, i.selectedProduct.value.name, baseScene, baseScene.name,
                           relative, s.generation.jewelryScale))
  }

  /** A generation's results shown and the scene replaced by the generated image. */
  function ShowGenerated(s: AppState, g: Generated, now: nat): AppState
  {
    s.(generation := s.generation.(generatedSceneUrlForDownload := Some(g.finalImageUrl),
                                   debugImageUrl := Some(g.debugImageUrl),
                                   debugPrompt := Some(g.finalPrompt)),
       inputs := s.inputs.(sceneImage := Some(GeneratedSceneFile(g.finalImageUrl, now))))
  }

  /**
   * `handleProductDrop` run to completion with the pipeline's `outcome`.
   * A missing input only sets the error. Otherwise the drop is recorded, and
   * afterwards nothing is loading and no orb is persisted; success shows the
   * results and replaces the scene, failure keeps the scene and sets the error.
   */
  function AfterDrop(s: AppState, position: Positioning.Point, relative: Positioning.RelativePosition,
                     outcome: Result<Generated, string>, now: nat): (t: AppState)
    ensures DropRequest(s, relative).None? ==> t == s.(status := s.status.(error := Some(UnexpectedError)))
    ensures DropRequest(s, relative).Some? ==>
              && !t.status.isLoading && t.generation.persistedOrbPosition.None?
              && t.generation.lastDropRelativePosition == Some(relative)
              && t.status.isDebugModalOpen == s.status.isDebugModalOpen
              && (outcome.Ok? ==> t.status.error.None?
                                  && t.generation.generatedSceneUrlForDownload == Some(outcome.value.finalImageUrl)
                                  && t.generation.debugImageUrl == Some(outcome.value.debugImageUrl)
                                  && t.generation.debugPrompt == Some(outcome.value.finalPrompt)
                                  && t.inputs.sceneImage == Some(GeneratedSceneFile(outcome.value.finalImageUrl, now)))
              && (outcome.Err? ==> t.status.error == Some(GenerateFailed + outcome.error)
                                   && t.inputs.sceneImage == s.inputs.sceneImage
                                   && t.generation.generatedSceneUrlForDownload == s.generation.generatedSceneUrlForDownload
                                   && t.generation.debugImageUrl == s.generation.debugImageUrl
                                   && t.generation.debugPrompt == s.generation.debugPrompt)
    ensures t.inputs.originalSceneImage == s.inputs.originalSceneImage && t.generation.jewelryScale == s.generation.jewelryScale
    ensures t.inputs.productImageFile == s.inputs.productImageFile && t.inputs.selectedProduct == s.inputs.selectedProduct
    ensures t.touch == s.touch
    ensures Valid(s) ==> Valid(t)
  {
    if DropRequest(s, relative).None? then s.(status := s.status.(error := Some(UnexpectedError)))
    else
      var started := s.(generation := s.generation.(persistedOrbPosition := Some(position), lastDropRelativePosition := Some(relative)),
                        status := s.status.(isLoading := true, error := None));
      var settled := match outcome
        case Ok(g) => ShowGenerated(started, g, now)
        case Err(message) => started.(status := started.status.(error := Some(GenerateFailed + message)));
      settled.(status := settled.status.(isLoading := false),
               generation := settled.generation.(persistedOrbPosition := None))
  }

  /** `handleReset`: back to the initial session, touch state and debug modal aside. */
  function AfterReset(s: AppState): (t: AppState)
    ensures t == Initial.(touch := s.touch, status := Initial.status.(isDebugModalOpen := s.status.isDebugModalOpen))
    ensures Valid(s) ==> Valid(t)
  {
    ResetGeneration(s.(inputs := s.inputs.(selectedProduct := None, productImageFile := None, sceneImage := None),
                       status := s.status.(error := None, isLoading := false)))
      .(inputs := Inputs(None, None, None, None))
  }

  /** `handleChangeProduct`: the jewelry is unloaded and the generation reset. */
  function AfterChangeProduct(s: AppState): (t: AppState)
    ensures t.inputs.selectedProduct.None? && t.inputs.productImageFile.None? && t.generation == FreshGeneration
    ensures t.inputs.sceneImage == s.inputs.sceneImage && t.inputs.originalSceneImage == s.inputs.originalSceneImage
    ensures t.status == s.status
    ensures Valid(s) ==> Valid(t)
  {
    ResetGeneration(s.(inputs := s.inputs.(selectedProduct := None, productImageFile := None)))
  }

  /** `handleChangeScene`: both scenes are unloaded and the generation reset. */
  function AfterChangeScene(s: AppState): (t: AppState)
    ensures t.inputs.sceneImage.None? && t.inputs.originalSceneImage.None? && t.generation == FreshGeneration
    ensures t.inputs.selectedProduct == s.inputs.selectedProduct && t.inputs.productImageFile == s.inputs.productImageFile
    ensures t.status == s.status
    ensures Valid(s) ==> Valid(t)
  {
    ResetGeneration(s.(inputs := s.inputs.(sceneImage := None, originalSceneImage := None)))
  }

  /** `Math.max(0.5, Math.min(2, scale + delta))`: the requested scale clamped to [0.5, 2]. */
  function NextScale(scale: real, delta: real): (next: real)
    ensures MinScale <= next <= MaxScale
    ensures MinScale <= scale + delta <= MaxScale ==> next == scale + delta
    ensures scale + delta < MinScale ==> next == MinScale
    ensures scale + delta > MaxScale ==> next == MaxScale
  {
    Max(MinScale, Min(MaxScale, scale + delta))
  }

  /**
   * The request `handleAdjustScale` makes: none when the jewelry file, the
   * original scene, the product or the last drop is missing, or when the
   * clamped scale equals the current one; otherwise a regeneration on the
   * original scene at the last drop with the new scale.
   */
  function AdjustRequest(s: AppState, delta: real): (r: Option<GenerateRequest>)
    ensures r.None? <==> s.inputs.productImageFile.None? || s.inputs.originalSceneImage.None? || s.inputs.selectedProduct.None?
                         || s.generation.lastDropRelativePosition.None?
                         || NextScale(s.generation.jewelryScale, delta) == s.generation.jewelryScale
    ensures r.Some? ==>
              && r.value.productFile == s.inputs.productImageFile.value
              && r.value.productName == s.inputs.selectedProduct.value.name
              && r.value.scene == s.inputs.originalSceneImage.value
              && r.value.sceneName == r.value.scene.name
              && r.value.position == s.generation.lastDropRelativePosition.value
              && r.value.scale == NextScale(s.generation.jewelryScale, delta) != s.generation.jewelryScale
  {
    var i, g := s.inputs, s.generation;
    if i.productImageFile.None? || i.originalSceneImage.None? || i.selectedProduct.None? || g.lastDropRelativePosition.None? then None
    else
      var nextScale := NextScale(g.jewelryScale, delta);
      if nextScale == g.jewelryScale then None
      else
        var scene := i.originalSceneImage.value;
        Some(GenerateRequest(i.productImageFile.value, i.selectedProduct.value.name, scene, scene.name,
                             g.lastDropRelativePosition.value, nextScale))
  }

  /**
   * `handleAdjustScale` run to completion with the pipeline's `outcome`.
   * Without a request nothing changes. Otherwise nothing is loading
   * afterwards, and the scale changes only when the generation succeeds;
   * on failure the error is set and the scene and scale are kept.
   */
  function AfterAdjust(s: AppState, delta: real, outcome: Result<Generated, string>, now: nat): (t: AppState)
    ensures AdjustRequest(s, delta).None? ==> t == s
    ensures t.generation.jewelryScale
            == (if AdjustRequest(s, delta).Some? && outcome.Ok? then NextScale(s.generation.jewelryScale, delta) else s.generation.jewelryScale)
    ensures AdjustRequest(s, delta).Some? ==>
              && !t.status.isLoading
              && (outcome.Ok? ==> t.status.error.None?
                                  && t.generation.generatedSceneUrlForDownload == Some(outcome.value.finalImageUrl)
                                  && t.generation.debugImageUrl == Some(outcome.value.debugImageUrl)
                                  && t.generation.debugPrompt == Some(outcome.value.finalPrompt)
                                  && t.inputs.sceneImage == Some(GeneratedSceneFile(outcome.value.finalImageUrl, now)))
              && (outcome.Err? ==> t.status.error == Some(AdjustFailed + outcome.error)
                                   && t.inputs.sceneImage == s.inputs.sceneImage
                                   && t.generation.generatedSceneUrlForDownload == s.generation.generatedSceneUrlForDownload
                                   && t.generation.debugImageUrl == s.generation.debugImageUrl
                                   && t.generation.debugPrompt == s.generation.debugPrompt)
    ensures t.inputs.originalSceneImage == s.inputs.originalSceneImage
    ensures t.inputs.productImageFile == s.inputs.productImageFile && t.inputs.selectedProduct == s.inputs.selectedProduct
    ensures t.generation.lastDropRelativePosition == s.generation.lastDropRelativePosition
    ensures t.generation.persistedOrbPosition == s.generation.persistedOrbPosition
    ensures t.status.isDebugModalOpen == s.status.isDebugModalOpen && t.touch == s.touch
    ensures Valid(s) ==> Valid(t)
  {
    if AdjustRequest(s, delta).None? then s
    else
      var started := s.(status := s.status.(isLoading := true, error := None));
      var settled := match outcome
        case Ok(g) =>
          var shown := ShowGenerated(started, g, now);
          shown.(generation := shown.generation.(jewelryScale := NextScale(s.generation.jewelryScale, delta)))
        case Err(message) => started.(status := started.status.(error := Some(AdjustFailed + message)));
      settled.(status := settled.status.(isLoading := false))
  }

  /**
   * The mapping the session's own touch-end handler writes out inline: the
   * same contain rectangle, offsets and closed-box rejection as the geometry
   * mapper, without its zero-size guard, so it is stated for measurable
   * elements only.
   */
  function InlineTouchMapping(img: Positioning.ImageElement, container: Positioning.Rect, clientX: real, clientY: real)
    : (r: Option<Positioning.Placement>)
    requires Positioning.Measurable(img, container)
    ensures r.Some? ==> r.value.position == Positioning.Point(clientX - container.left, clientY - container.top)
  {
    var rendered := InlineRenderedSize(img, container);
    var offsetX := (container.width - rendered.width) / 2.0;
    var offsetY := (container.height - rendered.height) / 2.0;
    var dropX := clientX - container.left;
    var dropY := clientY - container.top;
    var imageX := dropX - offsetX;
    var imageY := dropY - offsetY;
    ClosedBoxPlacement(dropX, dropY, imageX, imageY, rendered.width, rendered.height)
  }

  /** The contain rectangle as the touch-end handler computes it: the geometry mapper's. */
  function InlineRenderedSize(img: Positioning.ImageElement, container: Positioning.Rect): (size: Positioning.Size)
    requires Positioning.Measurable(img, container)
    ensures size == Positioning.Rendered(img, container)
  {
    var imageAspectRatio := img.naturalWidth / img.naturalHeight;
    var containerAspectRatio := container.width / container.height;
    var renderedWidth := if imageAspectRatio > containerAspectRatio then container.width else container.height * imageAspectRatio;
    var renderedHeight := if imageAspectRatio > containerAspectRatio then container.width / imageAspectRatio else container.height;
    Positioning.Size(renderedWidth, renderedHeight)
  }

  /**
   * The last step of both mappings: a point whose image coordinates fall
   * outside the closed rendered box is rejected, any other is placed at its
   * percentages of the box.
   */
  function ClosedBoxPlacement(dropX: real, dropY: real, imageX: real, imageY: real, width: real, height: real)
    : (r: Option<Positioning.Placement>)
    requires width > 0.0 && height > 0.0
    ensures r.None? <==> imageX < 0.0 || imageX > width || imageY < 0.0 || imageY > height
    ensures r.Some? ==> r.value.position == Positioning.Point(dropX, dropY)
  {
    if imageX < 0.0 || imageX > width || imageY < 0.0 || imageY > height then None
    else
      Some(Positioning.Placement(Positioning.Point(dropX, dropY),
                                 Positioning.RelativePosition(imageX / width * 100.0, imageY / height * 100.0)))
  }

  /**
   * For measurable elements the inline mapping is the geometry mapper: same
   * rejection, same point, same percentages.
   */
  lemma {:induction false} InlineMatchesMapper(img: Positioning.ImageElement, container: Positioning.Rect, clientX: real, clientY: real)
    requires Positioning.Measurable(img, container)
    ensures InlineTouchMapping(img, container, clientX, clientY) == Positioning.ComputeRelativePositionFromPoint(img, container, clientX, clientY)
  {
    var rendered, offset := Positioning.Rendered(img, container), Positioning.Offsets(img, container);
    var dropX, dropY := clientX - container.left, clientY - container.top;
    assert offset == Positioning.Point((container.width - rendered.width) / 2.0, (container.height - rendered.height) / 2.0);
    assert InlineTouchMapping(img, container, clientX, clientY)
           == ClosedBoxPlacement(dropX, dropY, dropX - offset.x, dropY - offset.y, rendered.width, rendered.height);
    assert Positioning.ComputeRelativePositionFromPoint(img, container, clientX, clientY)
           == ClosedBoxPlacement(dropX, dropY, dropX - offset.x, dropY - offset.y, rendered.width, rendered.height);
  }

  /** The zone and image a touch end sees are both present and measurable, or one of them is absent. */
  predicate MeasurableIfPresent(zone: Option<Positioning.Rect>, img: Option<Positioning.ImageElement>)
  {
    zone.Some? && img.Some? ==> Positioning.Measurable(img.value, zone.value)
  }

  /** The placement the session's touch end drops at, if any. */
  function TouchDrop(s: AppState, touch: Positioning.Point, zone: Option<Positioning.Rect>, img: Option<Positioning.ImageElement>)
    : Option<Positioning.Placement>
    requires MeasurableIfPresent(zone, img)
  {
    if s.touch.isTouchDragging && zone.Some? && img.Some? then InlineTouchMapping(img.value, zone.value, touch.x, touch.y)
    else None
  }

  /**
   * The session's touch end: while dragging, a drop on the content runs the
   * drop handler; then all four touch fields are reset.
   */
  function AfterTouchEnd(s: AppState, touch: Positioning.Point, zone: Option<Positioning.Rect>, img: Option<Positioning.ImageElement>,
                         outcome: Result<Generated, string>, now: nat): (t: AppState)
    requires MeasurableIfPresent(zone, img)
    ensures !s.touch.isTouchDragging ==> t == s
    ensures s.touch.isTouchDragging ==> t.touch == TouchDnD.Idle
    ensures Valid(s) ==> Valid(t)
  {
    if !s.touch.isTouchDragging then s
    else
      var drop := TouchDrop(s, touch, zone, img);
      var dropped := if drop.Some? then AfterDrop(s, drop.value.position, drop.value.relative, outcome, now) else s;
      dropped.(touch := TouchDnD.End(s.touch))
  }

  /**
   * The session's touch end drops exactly where the touch hook would, and at
   * the container-local touch point.
   */
  lemma TouchDropMatchesHook(s: AppState, touch: Positioning.Point, zone: Option<Positioning.Rect>, img: Option<Positioning.ImageElement>)
    requires MeasurableIfPresent(zone, img) && TouchDnD.Sizes(zone, img)
    ensures TouchDrop(s, touch, zone, img) == TouchDnD.EndDrop(s.touch, touch, zone, img)
  {
    if s.touch.isTouchDragging && zone.Some? && img.Some? {
      InlineMatchesMapper(img.value, zone.value, touch.x, touch.y);
    }
  }

  /** The controls of the workspace view. */
  datatype WorkspaceControls = WorkspaceControls(
    isDropZone: bool,
    showDebugButton: bool,
    showDownloadButton: bool,
    canAdjust: bool,
    canChangeScene: bool,
    canReset: bool,
    showLoadingMessage: bool)

  /** What `renderContent` shows. */
  datatype View =
    | ErrorView(message: string)
    | UploadView(canChangeProduct: bool, canChangeScene: bool)
    | Workspace(controls: WorkspaceControls)

  /** `renderContent`: the error first, then the upload view while an image is missing, then the workspace. */
  function RenderContent(s: AppState): (v: View)
    ensures s.status.error.Some? ==> v == ErrorView(s.status.error.value)
    ensures v.UploadView? <==> s.status.error.None? && (s.inputs.productImageFile.None? || s.inputs.sceneImage.None?)
    ensures v.Workspace? ==> s.inputs.productImageFile.Some? && s.inputs.sceneImage.Some?
    ensures Valid(s) && v.Workspace? ==> s.inputs.selectedProduct.Some?
  {
    if s.status.error.Some? then ErrorView(s.status.error.value)
    else if s.inputs.productImageFile.None? || s.inputs.sceneImage.None? then UploadView(s.inputs.productImageFile.Some?, s.inputs.sceneImage.Some?)
    else
      Workspace(WorkspaceControls(
        isDropZone := s.inputs.sceneImage.Some? && !s.status.isLoading,
        showDebugButton := s.generation.debugImageUrl.Some? && !s.status.isLoading,
        showDownloadButton := s.generation.generatedSceneUrlForDownload.Some? && !s.status.isLoading,
        canAdjust := s.generation.generatedSceneUrlForDownload.Some? && !s.status.isLoading && s.generation.lastDropRelativePosition.Some? && s.inputs.originalSceneImage.Some?,
        canChangeScene := s.inputs.sceneImage.Some? && !s.status.isLoading,
        canReset := s.inputs.productImageFile.Some? && s.inputs.sceneImage.Some? && !s.status.isLoading,
        showLoadingMessage := s.status.isLoading))
  }

  /**
   * When the workspace enables the size controls, an adjustment regenerates
   * exactly when the clamped scale differs from the current one.
   */
  lemma {:induction false} EnabledAdjustRegenerates(s: AppState, delta: real)
    requires Valid(s)
    requires RenderContent(s).Workspace? && RenderContent(s).controls.canAdjust
    ensures AdjustRequest(s, delta).Some? <==> NextScale(s.generation.jewelryScale, delta) != s.generation.jewelryScale
  {
    assert s.inputs.selectedProduct.Some?;
  }

  /**
   * Regenerations keep using the uploaded scene: after a scene upload and a
   * drop, whatever its outcome, a further drop or a size adjustment is made
   * on the uploaded file, not on the generated image that replaced it.
   */
  lemma {:induction false} RegenerationUsesUploadedScene(s: AppState, file: File, position: Positioning.Point,
                                                         relative: Positioning.RelativePosition, outcome: Result<Generated, string>,
                                                         now: nat, relative2: Positioning.RelativePosition, delta: real)
    ensures var t := AfterDrop(AfterSceneUpload(s, file), position, relative, outcome, now);
            && (DropRequest(t, relative2).Some? ==> DropRequest(t, relative2).value.scene == file)
            && (AdjustRequest(t, delta).Some? ==> AdjustRequest(t, delta).value.scene == file)
  {
    var u := AfterSceneUpload(s, file);
    assert u.inputs.originalSceneImage == Some(file);
  }

  /**
   * The session, kept in four fields that group the state variables the
   * source declares; each handler updates them in the source's order.
   */
  class App {
    var inputs: Inputs
    var generation: Generation
    var status: Status
    var touch: TouchDnD.TouchState

    function State(): AppState
      reads this
    {
      AppState(inputs, generation, status, touch)
    }

    constructor ()
      ensures State() == Initial && Valid(State())
    {
      inputs := Inputs(None, None, None, None);
      status := Status(false, None, false);
      generation := FreshGeneration;
      touch := TouchDnD.Idle;
    }

    method ResetGenerationState()
      modifies this`generation
      ensures generation == FreshGeneration
    {
      generation := generation.(persistedOrbPosition := None);
      generation := generation.(debugImageUrl := None);
      generation := generation.(debugPrompt := None);
      generation := generation.(generatedSceneUrlForDownload := None);
      generation := generation.(jewelryScale := DefaultScale);
      generation := generation.(lastDropRelativePosition := None);
    }

    /** `objectUrl` is the object URL the browser made for the file, or the message of its failure; `now` is Date.now(). */
    method HandleProductImageUpload(file: File, objectUrl: Result<string, string>, now: int)
      modifies this`inputs, this`generation, this`status
      ensures State() == AfterProductUpload(old(State()), file, objectUrl, now)
    {
      status := status.(error := None);
      match objectUrl {
        case Ok(url) =>
          var product := Product(now, file.name, url);
          inputs := inputs.(productImageFile := Some(file));
          inputs := inputs.(selectedProduct := Some(product));
          ResetGenerationState();
        case Err(message) =>
          status := status.(error := Some(ProductLoadFailed + message));
      }
    }

    /** The hidden jewelry input: the first chosen file, if any, is uploaded. */
    method HandleProductFileInputChange(files: seq<File>, objectUrl: Result<string, string>, now: int)
      modifies this`inputs, this`generation, this`status
      ensures |files| == 0 ==> State() == old(State())
      ensures |files| > 0 ==> State() == AfterProductUpload(old(State()), files[0], objectUrl, now)
    {
      if |files| > 0 {
        HandleProductImageUpload(files[0], objectUrl, now);
      }
    }

    method HandleSceneImageUpload(file: File)
      modifies this`inputs, this`generation
      ensures State() == AfterSceneUpload(old(State()), file)
    {
      inputs := inputs.(sceneImage := Some(file));
      inputs := inputs.(originalSceneImage := Some(file));
      ResetGenerationState();
    }

    /**
     * `handleProductDrop`; `outcome` is what the pipeline returned or threw
     * for the request made, and `now` is Date.now() when the result arrived.
     */
    method HandleProductDrop(position: Positioning.Point, relative: Positioning.RelativePosition,
                             outcome: Result<Generated, string>, now: nat)
      returns (request: Option<GenerateRequest>)
      modifies this`inputs, this`generation, this`status
      ensures request == DropRequest(old(State()), relative)
      ensures State() == AfterDrop(old(State()), position, relative, outcome, now)
    {
      if inputs.productImageFile.None? || inputs.sceneImage.None? || inputs.selectedProduct.None? {
        status := status.(error := Some(UnexpectedError));
        return None;
      }
      generation := generation.(persistedOrbPosition := Some(position));
      generation := generation.(lastDropRelativePosition := Some(relative));
      status := status.(isLoading := true);
      status := status.(error := None);
      var baseScene := if inputs.originalSceneImage.Some? then inputs.originalSceneImage.value else inputs.sceneImage.value;
      request := Some(GenerateRequest(inputs.productImageFile.value, inputs.selectedProduct.value.name, baseScene, baseScene.name,
                                      relative, generation.jewelryScale));
      match outcome {
        case Ok(g) =>
          ShowResult(g, now);
        case Err(message) =>
          status := status.(error := Some(GenerateFailed + message));
      }
      status := status.(isLoading := false);
      generation := generation.(persistedOrbPosition := None);
    }

    /** The success path of a generation: its results are shown and the scene becomes the generated image. */
    method ShowResult(g: Generated, now: nat)
      modifies this`inputs, this`generation
      ensures State() == ShowGenerated(old(State()), g, now)
    {
      generation := generation.(generatedSceneUrlForDownload := Some(g.finalImageUrl));
      generation := generation.(debugImageUrl := Some(g.debugImageUrl));
      generation := generation.(debugPrompt := Some(g.finalPrompt));
      inputs := inputs.(sceneImage := Some(GeneratedSceneFile(g.finalImageUrl, now)));
    }

    method HandleReset()
      modifies this`inputs, this`generation, this`status
      ensures State() == AfterReset(old(State()))
    {
      inputs := inputs.(selectedProduct := None);
      inputs := inputs.(productImageFile := None);
      inputs := inputs.(sceneImage := None);
      status := status.(error := None);
      status := status.(isLoading := false);
      ResetGenerationState();
      inputs := inputs.(originalSceneImage := None);
    }

    method HandleChangeProduct()
      modifies this`inputs, this`generation
      ensures State() == AfterChangeProduct(old(State()))
    {
      inputs := inputs.(selectedProduct := None);
      inputs := inputs.(productImageFile := None);
      ResetGenerationState();
    }

    method HandleChangeScene()
      modifies this`inputs, this`generation
      ensures State() == AfterChangeScene(old(State()))
    {
      inputs := inputs.(sceneImage := None);
      inputs := inputs.(originalSceneImage := None);
      ResetGenerationState();
    }

    /** `handleAdjustScale`; `outcome` and `now` as for a drop. */
    method HandleAdjustScale(delta: real, outcome: Result<Generated, string>, now: nat)
      returns (request: Option<GenerateRequest>)
      modifies this`inputs, this`generation, this`status
      ensures request == AdjustRequest(old(State()), delta)
      ensures State() == AfterAdjust(old(State()), delta, outcome, now)
    {
      if inputs.productImageFile.None? || inputs.originalSceneImage.None? || inputs.selectedProduct.None?
         || generation.lastDropRelativePosition.None? {
        return None;
      }
      var nextScale := NextScale(generation.jewelryScale, delta);
      if nextScale == generation.jewelryScale {
        return None;
      }
      status := status.(isLoading := true);
      status := status.(error := None);
      var scene := inputs.originalSceneImage.value;
      request := Some(GenerateRequest(inputs.productImageFile.value, inputs.selectedProduct.value.name, scene, scene.name,
                                      generation.lastDropRelativePosition.value, nextScale));
      match outcome {
        case Ok(g) =>
          ShowResult(g, now);
          generation := generation.(jewelryScale := nextScale);
        case Err(message) =>
          status := status.(error := Some(AdjustFailed + message));
      }
      status := status.(isLoading := false);
    }

    /** A touch on the jewelry card starts a drag only when a product is selected. */
    method HandleTouchStart(point: Positioning.Point)
      modifies this`touch
      ensures State() == old(State()).(touch := TouchDnD.Start(old(touch), inputs.selectedProduct.Some?, point))
    {
      if inputs.selectedProduct.None? {
        return;
      }
      touch := touch.(isTouchDragging := true);
      touch := touch.(touchGhostPosition := Some(point));
    }

    method HandleTouchMove(point: Positioning.Point, zone: Option<Positioning.Rect>)
      modifies this`touch
      ensures State() == old(State()).(touch := TouchDnD.Move(old(touch), point, zone))
    {
      if !touch.isTouchDragging {
        return;
      }
      touch := touch.(touchGhostPosition := Some(point));
      if zone.Some? {
        touch := touch.(touchOrbPosition := Some(Positioning.Point(point.x - zone.value.left, point.y - zone.value.top)));
        touch := touch.(isHoveringDropZone := true);
      } else {
        touch := touch.(isHoveringDropZone := false);
        touch := touch.(touchOrbPosition := None);
      }
    }

    /** The touch end; a drop on the content runs the drop handler with `outcome` and `now`. */
    method HandleTouchEnd(point: Positioning.Point, zone: Option<Positioning.Rect>, img: Option<Positioning.ImageElement>,
                          outcome: Result<Generated, string>, now: nat)
      returns (request: Option<GenerateRequest>)
      requires MeasurableIfPresent(zone, img)
      modifies this`inputs, this`generation, this`status, this`touch
      ensures var drop := TouchDrop(old(State()), point, zone, img);
              request == (if drop.Some? then DropRequest(old(State()), drop.value.relative) else None)
      ensures State() == AfterTouchEnd(old(State()), point, zone, img, outcome, now)
    {
      request := None;
      if !touch.isTouchDragging {
        return;
      }
      if zone.Some? && img.Some? {
        var placement := InlineTouchMapping(img.value, zone.value, point.x, point.y);
        if placement.Some? {
          request := HandleProductDrop(placement.value.position, placement.value.relative, outcome, now);
        }
      }
      touch := touch.(isTouchDragging := false);
      touch := touch.(touchGhostPosition := None);
      touch := touch.(isHoveringDropZone := false);
      touch := touch.(touchOrbPosition := None);
    }
  }
}
