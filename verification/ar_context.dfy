/**
 * The composer's shared state (`ARProvider`): six state cells, their setters, `resetAR`, and the
 * `useAR` guard that refuses use outside a provider.
 */
module ARContext {
  import opened Wrappers
  import opened Scene

  /** A snapshot of the six state cells. */
  datatype ComposerState = ComposerState(
    baseImage: Option<string>,
    overlayImage: Option<string>,
    overlayPosition: Vec3,
    overlayRotation: Vec3,
    overlayScale: Num,
    shareEnabled: bool)

  /** The `useState` initial values: no images, origin position and rotation, scale 1, sharing off. */
  const Initial: ComposerState := ComposerState(None, None, Origin, Origin, UnitScale, false)

  /** The message `useAR` throws outside a provider. */
  const OutsideProvider := "useAR must be used within an ARProvider"

  /**
   * The data `ARView` hands to the provider as `initialData`: the loaded scene (everything but
   * `shareEnabled`).
   */
  function SeededState(initialData: Option<SceneData>): (s: ComposerState)
    ensures initialData.None? ==> s == Initial
    ensures initialData.Some? ==>
      && s.baseImage == initialData.value.baseImage && s.overlayImage == initialData.value.overlayImage
      && s.overlayPosition == initialData.value.position && s.overlayRotation == initialData.value.rotation
      && s.overlayScale == initialData.value.scale && !s.shareEnabled
  {
    match initialData
    case None => Initial
    case Some(d) => ComposerState(d.baseImage, d.overlayImage, d.position, d.rotation, d.scale, false)
  }

  /**
   * The state a provider starts in as written: the provider's only prop is `children`, so any
   * `initialData` passed to it is dropped and the state starts at the defaults.
   */
  function ProviderStartAsWritten(initialData: Option<SceneData>): (s: ComposerState)
    ensures s == Initial
  {
    Initial
  }

  /** As written, a viewer page's provider never shows the scene it loaded. */
  lemma ProviderDropsInitialData(d: SceneData)
    requires d.baseImage.Some?
    ensures ProviderStartAsWritten(Some(d)).baseImage != d.baseImage
    ensures SeededState(Some(d)).baseImage == d.baseImage
  {
  }

  /** One `ARProvider` instance: its six state cells. */
  class Composer {
    var baseImage: Option<string>
    var overlayImage: Option<string>
    var overlayPosition: Vec3
    var overlayRotation: Vec3
    var overlayScale: Num
    var shareEnabled: bool

    /** The current values of the six cells. */
    function State(): ComposerState
      reads this
    {
      ComposerState(baseImage, overlayImage, overlayPosition, overlayRotation, overlayScale, shareEnabled)
    }

    /**
     * A provider mounted with the given `initialData`: its cells start from that data when there
     * is some, and at the defaults otherwise.
     */
    constructor(initialData: Option<SceneData>)
      ensures State() == SeededState(initialData)
      ensures initialData.None? ==> State() == Initial
    {
      var s := SeededState(initialData);
      baseImage := s.baseImage;
      overlayImage := s.overlayImage;
      overlayPosition := s.overlayPosition;
      overlayRotation := s.overlayRotation;
      overlayScale := s.overlayScale;
      shareEnabled := s.shareEnabled;
    }

    method SetBaseImage(url: Option<string>)
      modifies this
      ensures State() == old(State()).(baseImage := url)
    {
      baseImage := url;
    }

    /** Also how the viewer removes the overlay (`setOverlayImage(null)`); the transform stays. */
    method SetOverlayImage(url: Option<string>)
      modifies this
      ensures State() == old(State()).(overlayImage := url)
    {
      overlayImage := url;
    }

    method SetOverlayPosition(position: Vec3)
      modifies this
      ensures State() == old(State()).(overlayPosition := position)
    {
      overlayPosition := position;
    }

    method SetOverlayRotation(rotation: Vec3)
      modifies this
      ensures State() == old(State()).(overlayRotation := rotation)
    {
      overlayRotation := rotation;
    }

    method SetOverlayScale(scale: Num)
      modifies this
      ensures State() == old(State()).(overlayScale := scale)
    {
      overlayScale := scale;
    }

    method SetShareEnabled(enabled: bool)
      modifies this
      ensures State() == old(State()).(shareEnabled := enabled)
    {
      shareEnabled := enabled;
    }

    /** `resetAR`: the six writes, after which every cell holds its initial value whatever it held. */
    method ResetAR()
      modifies this
      ensures State() == Initial
    {
      SetBaseImage(None);
      SetOverlayImage(None);
      SetOverlayPosition(Origin);
      SetOverlayRotation(Origin);
      SetOverlayScale(UnitScale);
      SetShareEnabled(false);
    }
  }


  /** `useAR()`: the nearest provider's state, or the error it throws when there is none. */
  function UseAR(provider: Option<Composer>): (r: Result<Composer, string>)
    ensures provider.None? <==> r.Failure?
    ensures r.Failure? ==> r.error == OutsideProvider
    ensures r.Success? ==> r.value == provider.value
  {
    match provider
    case None => Failure(OutsideProvider)
    case Some(c) => Success(c)
  }
}
