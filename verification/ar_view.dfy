/**
 * The viewer page (`/ar-view/:id` and the legacy `/ar-view?...`): it loads the scene either from
 * the backend by id or from the link's query parameters, and ends in a loaded or an error state.
 *
 * `parseFloat` is the parameter `parse`; the backend fetch for an id is its outcome, `fetched`.
 */
module ARView {
  import opened Wrappers
  import opened Text
  import opened Scene
  import Form = FormUrlEncoded
  import UriComponent
  import QR = QRCodeGenerator

  /** The error the page shows for any failed load. */
  const LoadFailed := "Failed to load AR experience. Please check the URL and try again."

  /** What the legacy path throws when the link has no base image. */
  const NoBaseImage := "No base image provided"

  /** `searchParams.get(name) || fallback`. */
  function ParamOr(ps: seq<Form.Pair>, name: string, fallback: string): (r: string)
    ensures Truthy(Form.Get(ps, name)) ==> r == Form.Get(ps, name).value
    ensures !Truthy(Form.Get(ps, name)) ==> r == fallback
  {
    var v := Form.Get(ps, name);
    if Truthy(v) then v.value else fallback
  }

  /**
   * An image parameter decoded once more with `decodeURIComponent`: null when the parameter is
   * missing or empty; `Failure` when the decoding throws.
   */
  function DecodedImage(ps: seq<Form.Pair>, name: string): (r: Result<Option<string>, string>)
    ensures !Truthy(Form.Get(ps, name)) ==> r == Success(None)
    ensures Truthy(Form.Get(ps, name)) ==>
      match UriComponent.Decode(Form.Get(ps, name).value)
      case None => r.Failure?
      case Some(s) => r == Success(Some(s))
  {
    var v := Form.Get(ps, name);
    if !Truthy(v) then Success(None)
    else
      match UriComponent.Decode(v.value)
      case None => Failure("URIError: URI malformed")
      case Some(s) => Success(Some(s))
  }

  /**
   * The legacy path on the link's search parameters: both images decoded (either may throw),
   * each number parsed from its parameter or from "0" ("1" for the scale) when that is missing or
   * empty, and an error when there is no base image. A missing overlay is not an error.
   */
  function ParseLegacyQuery(ps: seq<Form.Pair>, parse: string -> Num): (r: Result<SceneData, string>)
    ensures DecodedImage(ps, "baseImage").Failure? || DecodedImage(ps, "overlayImage").Failure? ==> r.Failure?
    ensures DecodedImage(ps, "baseImage") == Success(None) ==> r.Failure?
    ensures (DecodedImage(ps, "baseImage").Success? && Truthy(DecodedImage(ps, "baseImage").value)
             && DecodedImage(ps, "overlayImage").Success?) ==> r.Success?
    ensures r.Success? ==>
      && Truthy(r.value.baseImage)
      && DecodedImage(ps, "baseImage") == Success(r.value.baseImage)
      && DecodedImage(ps, "overlayImage") == Success(r.value.overlayImage)
      && r.value.position == Vec3(parse(ParamOr(ps, "posX", "0")), parse(ParamOr(ps, "posY", "0")), parse(ParamOr(ps, "posZ", "0")))
      && r.value.rotation == Vec3(parse(ParamOr(ps, "rotX", "0")), parse(ParamOr(ps, "rotY", "0")), parse(ParamOr(ps, "rotZ", "0")))
      && r.value.scale == parse(ParamOr(ps, "scale", "1"))
  {
    match DecodedImage(ps, "baseImage")
    case Failure(e) => Failure(e)
    case Success(baseImage) =>
      match DecodedImage(ps, "overlayImage")
      case Failure(e) => Failure(e)
      case Success(overlayImage) =>
        var position := Vec3(parse(ParamOr(ps, "posX", "0")), parse(ParamOr(ps, "posY", "0")), parse(ParamOr(ps, "posZ", "0")));
        var rotation := Vec3(parse(ParamOr(ps, "rotX", "0")), parse(ParamOr(ps, "rotY", "0")), parse(ParamOr(ps, "rotZ", "0")));
        var scale := parse(ParamOr(ps, "scale", "1"));
        if !Truthy(baseImage) then Failure(NoBaseImage)
        else Success(SceneData(baseImage, overlayImage, position, rotation, scale))
  }

  /** A link with only a base image gets the default transform. */
  lemma LegacyDefaults(ps: seq<Form.Pair>, parse: string -> Num)
    requires parse("0") == 0.0 && parse("1") == 1.0
    requires forall i | 0 <= i < |ps| :: ps[i].0 in {"baseImage", "overlayImage"}
    requires ParseLegacyQuery(ps, parse).Success?
    ensures var d := ParseLegacyQuery(ps, parse).value;
      d.position == Origin && d.rotation == Origin && d.scale == UnitScale
  {
    var names := ["posX", "posY", "posZ", "rotX", "rotY", "rotZ", "scale"];
    forall k | 0 <= k < |names| ensures Form.Get(ps, names[k]).None? {
      forall i | 0 <= i < |ps| ensures ps[i].0 != names[k] {
      }
    }
    assert Form.Get(ps, "posX").None? && Form.Get(ps, "posY").None? && Form.Get(ps, "posZ").None?;
    assert Form.Get(ps, "rotX").None? && Form.Get(ps, "rotY").None? && Form.Get(ps, "rotZ").None?;
    assert Form.Get(ps, "scale").None?;
  }

  /**
   * What a load yields: with a route id (non-empty), the backend's answer and nothing from the
   * query; without one, the legacy parse of the query. Any failure becomes the page's error.
   */
  function LoadOutcome(id: Option<string>, ps: seq<Form.Pair>, fetched: Result<SceneData, string>, parse: string -> Num): (r: Result<SceneData, string>)
    ensures Truthy(id) ==> (r.Success? <==> fetched.Success?) && (r.Success? ==> r.value == fetched.value)
    ensures !Truthy(id) ==> (r.Success? <==> ParseLegacyQuery(ps, parse).Success?)
                            && (r.Success? ==> r.value == ParseLegacyQuery(ps, parse).value)
    ensures r.Failure? ==> r.error == LoadFailed
  {
    var outcome := if Truthy(id) then fetched else ParseLegacyQuery(ps, parse);
    match outcome
    case Success(d) => Success(d)
    case Failure(_) => Failure(LoadFailed)
  }

  /** A route id takes precedence: the query is then never read, and without one the fetch is never made. */
  lemma IdTakesPrecedence(id: Option<string>, ps1: seq<Form.Pair>, ps2: seq<Form.Pair>,
                          f1: Result<SceneData, string>, f2: Result<SceneData, string>, parse: string -> Num)
    ensures Truthy(id) ==> LoadOutcome(id, ps1, f1, parse) == LoadOutcome(id, ps2, f1, parse)
    ensures !Truthy(id) ==> LoadOutcome(id, ps1, f1, parse) == LoadOutcome(id, ps1, f2, parse)
  {
  }

  /** The page's state cells. */
  class ViewerPage {
    var isLoading: bool
    var error: Option<string>
    var arData: SceneData

    /** The page as first rendered: loading, no error, the empty scene. */
    constructor()
      ensures isLoading && error.None? && arData == EmptyScene
    {
      isLoading := true;
      error := None;
      arData := EmptyScene;
    }

    /**
     * `loadARData`: loading is switched on, then the scene or the error is set, and loading is
     * switched off. Exactly one of the two is written; the other cell keeps its value.
     */
    method LoadARData(id: Option<string>, ps: seq<Form.Pair>, fetched: Result<SceneData, string>, parse: string -> Num)
      modifies this
      ensures !isLoading
      ensures LoadOutcome(id, ps, fetched, parse).Success? ==>
        arData == LoadOutcome(id, ps, fetched, parse).value && error == old(error)
      ensures LoadOutcome(id, ps, fetched, parse).Failure? ==>
        error == Some(LoadFailed) && arData == old(arData)
    {
      isLoading := true;
      var outcome: Result<SceneData, string>;
      if Truthy(id) {
        outcome := fetched;
      } else {
        outcome := ParseLegacyQuery(ps, parse);
      }
      match outcome {
        case Success(d) =>
          arData := d;
          isLoading := false;
        case Failure(_) =>
          error := Some(LoadFailed);
          isLoading := false;
      }
    }
  }

  // ---- Share link round trip ----

  /** The pairs of a query link, by position. */
  lemma ShareQueryElements(baseUrl: string, overlayUrl: string, d: SceneData, now: nat, show: Num -> string)
    requires overlayUrl != ""
    ensures var ps := QR.ShareQuery(baseUrl, overlayUrl, d, now, show);
      && |ps| == 10
      && ps[0] == ("baseImage", UriComponent.Encode(baseUrl))
      && ps[1] == ("overlayImage", UriComponent.Encode(overlayUrl))
      && ps[2] == ("posX", show(d.position.x)) && ps[3] == ("posY", show(d.position.y))
      && ps[4] == ("posZ", show(d.position.z)) && ps[5] == ("rotX", show(d.rotation.x))
      && ps[6] == ("rotY", show(d.rotation.y)) && ps[7] == ("rotZ", show(d.rotation.z))
      && ps[8] == ("scale", show(d.scale))
  {
    var e := UriComponent.Encode(overlayUrl);
    assert e != "";
    var overlay: Form.Pair := ("overlayImage", e);
    assert (if e != "" then [overlay] else []) == [overlay];
    Ten(("baseImage", UriComponent.Encode(baseUrl)), overlay,
        ("posX", show(d.position.x)), ("posY", show(d.position.y)), ("posZ", show(d.position.z)),
        ("rotX", show(d.rotation.x)), ("rotY", show(d.rotation.y)), ("rotZ", show(d.rotation.z)),
        ("scale", show(d.scale)), ("t", Decimal(now)));
  }

  /** Ten single-pair lists joined left to right are the list of the ten pairs. */
  lemma Ten(p0: Form.Pair, p1: Form.Pair, p2: Form.Pair, p3: Form.Pair, p4: Form.Pair,
            p5: Form.Pair, p6: Form.Pair, p7: Form.Pair, p8: Form.Pair, p9: Form.Pair)
    ensures [p0] + [p1] + [p2] + [p3] + [p4] + [p5] + [p6] + [p7] + [p8] + [p9]
         == [p0, p1, p2, p3, p4, p5, p6, p7, p8, p9]
  {
  }

  /** The first nine pairs of a query link for scene `d`, in the order the generator appends them. */
  predicate QueryPairsFor(ps: seq<Form.Pair>, encodedBase: string, encodedOverlay: string, d: SceneData, show: Num -> string) {
    && |ps| >= 9
    && ps[0] == ("baseImage", encodedBase) && ps[1] == ("overlayImage", encodedOverlay)
    && ps[2] == ("posX", show(d.position.x)) && ps[3] == ("posY", show(d.position.y))
    && ps[4] == ("posZ", show(d.position.z)) && ps[5] == ("rotX", show(d.rotation.x))
    && ps[6] == ("rotY", show(d.rotation.y)) && ps[7] == ("rotZ", show(d.rotation.z))
    && ps[8] == ("scale", show(d.scale))
  }

  /** The scene's pairs of a query link, read by name. */
  lemma SceneLookup(ps: seq<Form.Pair>, encodedBase: string, encodedOverlay: string, d: SceneData, show: Num -> string)
    requires QueryPairsFor(ps, encodedBase, encodedOverlay, d, show)
    ensures Form.Get(ps, "baseImage") == Some(encodedBase)
    ensures Form.Get(ps, "overlayImage") == Some(encodedOverlay)
    ensures Form.Get(ps, "posX") == Some(show(d.position.x))
    ensures Form.Get(ps, "posY") == Some(show(d.position.y))
    ensures Form.Get(ps, "posZ") == Some(show(d.position.z))
    ensures Form.Get(ps, "rotX") == Some(show(d.rotation.x))
    ensures Form.Get(ps, "rotY") == Some(show(d.rotation.y))
    ensures Form.Get(ps, "rotZ") == Some(show(d.rotation.z))
    ensures Form.Get(ps, "scale") == Some(show(d.scale))
  {
    Form.GetAt(ps, 0, "baseImage");
    Form.GetAt(ps, 1, "overlayImage");
    PositionLookup(ps, encodedBase, encodedOverlay, d, show);
    RotationLookup(ps, encodedBase, encodedOverlay, d, show);
  }

  lemma PositionLookup(ps: seq<Form.Pair>, encodedBase: string, encodedOverlay: string, d: SceneData, show: Num -> string)
    requires QueryPairsFor(ps, encodedBase, encodedOverlay, d, show)
    ensures Form.Get(ps, "posX") == Some(show(d.position.x))
    ensures Form.Get(ps, "posY") == Some(show(d.position.y))
    ensures Form.Get(ps, "posZ") == Some(show(d.position.z))
  {
    forall j | 0 <= j < 2 ensures ps[j].0 != "posX" {
      if j == 0 {} else {}
    }
    Form.GetAt(ps, 2, "posX");
    forall j | 0 <= j < 3 ensures ps[j].0 != "posY" {
      if j == 0 {} else if j == 1 {} else {}
    }
    Form.GetAt(ps, 3, "posY");
    forall j | 0 <= j < 4 ensures ps[j].0 != "posZ" {
      if j == 0 {} else if j == 1 {} else if j == 2 {} else {}
    }
    Form.GetAt(ps, 4, "posZ");
  }

  lemma RotationLookup(ps: seq<Form.Pair>, encodedBase: string, encodedOverlay: string, d: SceneData, show: Num -> string)
    requires QueryPairsFor(ps, encodedBase, encodedOverlay, d, show)
    ensures Form.Get(ps, "rotX") == Some(show(d.rotation.x))
    ensures Form.Get(ps, "rotY") == Some(show(d.rotation.y))
    ensures Form.Get(ps, "rotZ") == Some(show(d.rotation.z))
    ensures Form.Get(ps, "scale") == Some(show(d.scale))
  {
    forall j | 0 <= j < 5 ensures ps[j].0 != "rotX" {
      if j == 0 {} else if j == 1 {} else if j == 2 {} else if j == 3 {} else {}
    }
    Form.GetAt(ps, 5, "rotX");
    forall j | 0 <= j < 6 ensures ps[j].0 != "rotY" {
      if j == 0 {} else if j == 1 {} else if j == 2 {} else if j == 3 {} else if j == 4 {} else {}
    }
    Form.GetAt(ps, 6, "rotY");
    LastLookup(ps, encodedBase, encodedOverlay, d, show);
  }

  lemma LastLookup(ps: seq<Form.Pair>, encodedBase: string, encodedOverlay: string, d: SceneData, show: Num -> string)
    requires QueryPairsFor(ps, encodedBase, encodedOverlay, d, show)
    ensures Form.Get(ps, "rotZ") == Some(show(d.rotation.z))
    ensures Form.Get(ps, "scale") == Some(show(d.scale))
  {
    forall j | 0 <= j < 7 ensures ps[j].0 != "rotZ" {
      if j == 0 {} else if j == 1 {} else if j == 2 {} else if j == 3 {} else if j == 4 {} else if j == 5 {} else {}
    }
    Form.GetAt(ps, 7, "rotZ");
    forall j | 0 <= j < 8 ensures ps[j].0 != "scale" {
      if j == 0 {} else if j == 1 {} else if j == 2 {} else if j == 3 {} else if j == 4 {} else if j == 5 {} else if j == 6 {} else {}
    }
    Form.GetAt(ps, 8, "scale");
  }

  /** `parse` reads back what `show` writes for one number, and `show` writes something. */
  predicate RoundTrips(x: Num, show: Num -> string, parse: string -> Num) {
    parse(show(x)) == x && show(x) != ""
  }

  /** `parse` undoes `show` on each of the scene's seven numbers. */
  predicate SceneNumbersRoundTrip(d: SceneData, show: Num -> string, parse: string -> Num) {
    && RoundTrips(d.position.x, show, parse) && RoundTrips(d.position.y, show, parse)
    && RoundTrips(d.position.z, show, parse) && RoundTrips(d.rotation.x, show, parse)
    && RoundTrips(d.rotation.y, show, parse) && RoundTrips(d.rotation.z, show, parse)
    && RoundTrips(d.scale, show, parse)
  }

  /**
   * The query link the generator makes for a scene with both images, read back by the viewer's
   * legacy path, gives that scene: the search-parameter decoding and `decodeURIComponent` undo
   * the two encodings of each image, and `parse` undoes `show` on each number.
   */
  lemma ShareLinkRoundTrip(d: SceneData, origin: string, now: nat, show: Num -> string, parse: string -> Num)
    requires Truthy(d.baseImage) && Truthy(d.overlayImage)
    requires SceneNumbersRoundTrip(d, show, parse)
    ensures var link := QR.ShareUrlFor(d, None, origin, now, show);
      var query := Form.Serialize(QR.ShareQuery(d.baseImage.value, d.overlayImage.value, d, now, show));
      && link == Some(origin + "/ar-view?" + query)
      && Form.Parse(query) == QR.ShareQuery(d.baseImage.value, d.overlayImage.value, d, now, show)
      && ParseLegacyQuery(Form.Parse(query), parse) == Success(d)
  {
    var b, o := d.baseImage.value, d.overlayImage.value;
    var ps := QR.ShareQuery(b, o, d, now, show);
    Form.ParseSerialize(ps);
    ShareQueryElements(b, o, d, now, show);
    SceneLookup(ps, UriComponent.Encode(b), UriComponent.Encode(o), d, show);
    UriComponent.DecodeEncode(b);
    UriComponent.DecodeEncode(o);
    assert DecodedImage(ps, "baseImage") == Success(Some(b));
    assert DecodedImage(ps, "overlayImage") == Success(Some(o));
    assert ParamOr(ps, "posX", "0") == show(d.position.x);
    assert ParamOr(ps, "posY", "0") == show(d.position.y);
    assert ParamOr(ps, "posZ", "0") == show(d.position.z);
    assert ParamOr(ps, "rotX", "0") == show(d.rotation.x);
    assert ParamOr(ps, "rotY", "0") == show(d.rotation.y);
    assert ParamOr(ps, "rotZ", "0") == show(d.rotation.z);
    assert ParamOr(ps, "scale", "1") == show(d.scale);
  }

  /**
   * Following a query link: the page ends loaded with the scene the link was made for, and with
   * no error when it had none.
   */
  method FollowShareLink(page: ViewerPage, d: SceneData, origin: string, now: nat, show: Num -> string, parse: string -> Num,
                         fetched: Result<SceneData, string>)
    requires Truthy(d.baseImage) && Truthy(d.overlayImage)
    requires SceneNumbersRoundTrip(d, show, parse)
    modifies page
    ensures !page.isLoading && page.arData == d && page.error == old(page.error)
  {
    var query := Form.Serialize(QR.ShareQuery(d.baseImage.value, d.overlayImage.value, d, now, show));
    ShareLinkRoundTrip(d, origin, now, show, parse);
    page.LoadARData(None, Form.Parse(query), fetched, parse);
  }
}
