/**
 * The share-link generator: once both images are set it builds the link a QR code shows, either
 * `<origin>/ar-view/<id>?t=<time>` for a stored scene or `<origin>/ar-view?<query>` carrying the
 * whole scene; `testLink` and the in-app path refresh the link's `t` parameter.
 *
 * `Number.prototype.toString` is the parameter `show`, the clock reading `now`, the page's origin
 * `origin`, and the URL parser `parseUrl`.
 */
module QRCodeGenerator {
  import opened Wrappers
  import opened Text
  import opened Scene
  import Form = FormUrlEncoded
  import UriComponent
  import Url

  /**
   * The uploaded-image record the generator looks for in the composer state: hosted URLs of the
   * images and the id of a stored scene, each possibly absent.
   */
  datatype Uploads = Uploads(baseImage: Option<string>, overlayImage: Option<string>, metadataId: Option<string>)

  /** `a || b` on optional strings, where b is known to be truthy. */
  function Or(a: Option<string>, b: string): (r: string)
    ensures Truthy(a) ==> r == a.value
    ensures !Truthy(a) ==> r == b
  {
    if Truthy(a) then a.value else b
  }

  /** The parameter names of a query link, in the order they are appended. */
  const QueryOrder: seq<string> := ["baseImage", "overlayImage", "posX", "posY", "posZ", "rotX", "rotY", "rotZ", "scale", "t"]

  /**
   * The pairs appended to the link's `URLSearchParams`: the percent-encoded image URLs, the
   * position, rotation and scale as `show` writes them, and the time. The overlay pair is left out
   * when its encoding is empty.
   */
  function ShareQuery(baseUrl: string, overlayUrl: string, d: SceneData, now: nat, show: Num -> string): seq<Form.Pair> {
    var encodedOverlay := UriComponent.Encode(overlayUrl);
    [("baseImage", UriComponent.Encode(baseUrl))]
    + (if encodedOverlay != "" then [("overlayImage", encodedOverlay)] else [])
    + [("posX", show(d.position.x))] + [("posY", show(d.position.y))] + [("posZ", show(d.position.z))]
    + [("rotX", show(d.rotation.x))] + [("rotY", show(d.rotation.y))] + [("rotZ", show(d.rotation.z))]
    + [("scale", show(d.scale))] + [("t", Decimal(now))]
  }

  /**
   * The link the generator's effect sets, with the uploaded-image record read defensively
   * (`uploads` absent when the composer state has none). No link unless both images are set;
   * hosted URLs win over the images themselves; a stored scene's id gives the short form.
   */
  function ShareUrlFor(d: SceneData, uploads: Option<Uploads>, origin: string, now: nat, show: Num -> string): (r: Option<string>)
    ensures r.None? <==> !(Truthy(d.baseImage) && Truthy(d.overlayImage))
    ensures r.Some? && uploads.Some? && Truthy(uploads.value.metadataId) ==>
      r.value == origin + "/ar-view/" + uploads.value.metadataId.value + "?t=" + Decimal(now)
    ensures r.Some? && !(uploads.Some? && Truthy(uploads.value.metadataId)) ==>
      var u := if uploads.Some? then uploads.value else Uploads(None, None, None);
      r.value == origin + "/ar-view?"
                 + Form.Serialize(ShareQuery(Or(u.baseImage, d.baseImage.value), Or(u.overlayImage, d.overlayImage.value), d, now, show))
  {
    if !(Truthy(d.baseImage) && Truthy(d.overlayImage)) then None
    else
      var u := if uploads.Some? then uploads.value else Uploads(None, None, None);
      var baseUrl := Or(u.baseImage, d.baseImage.value);
      var overlayUrl := Or(u.overlayImage, d.overlayImage.value);
      if Truthy(u.metadataId) then Some(origin + "/ar-view/" + u.metadataId.value + "?t=" + Decimal(now))
      else Some(origin + "/ar-view?" + Form.Serialize(ShareQuery(baseUrl, overlayUrl, d, now, show)))
  }

  /** The TypeError message for reading a property of `undefined`. */
  function ReadOfUndefined(property: string): string {
    "Cannot read properties of undefined (reading '" + property + "')"
  }

  /**
   * The effect as written: `cloudinaryUrls` is taken from a context that never provides it, so
   * once both images are set, reading `cloudinaryUrls.baseImage` throws and no link is made.
   */
  function ShareUrlEffectAsWritten(d: SceneData, origin: string, now: nat, show: Num -> string): (r: Result<Option<string>, string>)
    ensures r.Success? ==> r.value.None?
    ensures r.Failure? <==> Truthy(d.baseImage) && Truthy(d.overlayImage)
  {
    if !(Truthy(d.baseImage) && Truthy(d.overlayImage)) then Success(None)
    else Failure(ReadOfUndefined("baseImage"))
  }

  /** As written, the generator throws for every scene it should make a link for. */
  lemma AsWrittenNeverLinks(d: SceneData, origin: string, now: nat, show: Num -> string)
    requires Truthy(d.baseImage) && Truthy(d.overlayImage)
    ensures ShareUrlEffectAsWritten(d, origin, now, show).Failure?
    ensures ShareUrlFor(d, None, origin, now, show).Some?
  {
  }

  /** A `URLSearchParams` being filled by `append` calls. */
  class ParamsBuffer {
    var list: seq<Form.Pair>

    constructor()
      ensures list == []
    {
      list := [];
    }

    method Append(name: string, value: string)
      modifies this
      ensures list == old(list) + [(name, value)]
    {
      list := list + [(name, value)];
    }
  }

  /** One mounted generator: the `shareUrl` state it renders from. */
  class Generator {
    var shareUrl: string

    constructor()
      ensures shareUrl == ""
    {
      shareUrl := "";
    }

    /**
     * The effect that runs when the scene changes: the link is set when there is one to make, and
     * left as it was otherwise. The query form is built by appending to a fresh buffer.
     */
    method RunEffect(d: SceneData, uploads: Option<Uploads>, origin: string, now: nat, show: Num -> string)
      modifies this
      ensures ShareUrlFor(d, uploads, origin, now, show).Some? ==> shareUrl == ShareUrlFor(d, uploads, origin, now, show).value
      ensures ShareUrlFor(d, uploads, origin, now, show).None? ==> shareUrl == old(shareUrl)
    {
      if Truthy(d.baseImage) && Truthy(d.overlayImage) {
        var u := if uploads.Some? then uploads.value else Uploads(None, None, None);
        var baseUrl := Or(u.baseImage, d.baseImage.value);
        var overlayUrl := Or(u.overlayImage, d.overlayImage.value);
        if Truthy(u.metadataId) {
          shareUrl := origin + "/ar-view/" + u.metadataId.value + "?t=" + Decimal(now);
        } else {
          var query := BuildQuery(baseUrl, overlayUrl, d, now, show);
          shareUrl := origin + "/ar-view?" + Form.Serialize(query);
        }
      }
    }
  }

  /**
   * The effect's query: a fresh buffer with the pairs appended in order, the images
   * percent-encoded first and the overlay's pair only when its encoding is not empty.
   */
  method BuildQuery(baseUrl: string, overlayUrl: string, d: SceneData, now: nat, show: Num -> string)
    returns (query: seq<Form.Pair>)
    ensures query == ShareQuery(baseUrl, overlayUrl, d, now, show)
  {
    var encodedBase := UriComponent.Encode(baseUrl);
    var encodedOverlay := if overlayUrl != "" then UriComponent.Encode(overlayUrl) else "";
    assert encodedOverlay == UriComponent.Encode(overlayUrl);
    var params := new ParamsBuffer();
    params.Append("baseImage", encodedBase);
    if encodedOverlay != "" {
      params.Append("overlayImage", encodedOverlay);
    }
    assert params.list == [("baseImage", encodedBase)] + (if encodedOverlay != "" then [("overlayImage", encodedOverlay)] else []);
    params.Append("posX", show(d.position.x));
    params.Append("posY", show(d.position.y));
    params.Append("posZ", show(d.position.z));
    params.Append("rotX", show(d.rotation.x));
    params.Append("rotY", show(d.rotation.y));
    params.Append("rotZ", show(d.rotation.z));
    params.Append("scale", show(d.scale));
    params.Append("t", Decimal(now));
    query := params.list;
  }

  /**
   * The link with a fresh `t`, as `testLink` opens it: the parsed link with `t` set to `now`, so
   * it has exactly one `t`, the other parameters unchanged and in order. `None` when the link
   * does not parse (`new URL` throws).
   */
  function RefreshedLink(shareUrl: string, now: nat, parseUrl: string -> Option<Url.Parsed>): (r: Option<Url.Parsed>)
    ensures r.None? <==> parseUrl(shareUrl).None?
    ensures r.Some? ==>
      var u := parseUrl(shareUrl).value;
      && r.value.head == u.head && r.value.path == u.path && r.value.fragment == u.fragment
      && Form.Count(Url.SearchParams(r.value), "t") == 1
      && Form.Get(Url.SearchParams(r.value), "t") == Some(Decimal(now))
      && Form.Without(Url.SearchParams(r.value), "t") == Form.Without(Url.SearchParams(u), "t")
  {
    match parseUrl(shareUrl)
    case None => None
    case Some(u) => Some(Url.SetSearchParam(u, "t", Decimal(now)))
  }

  /** `testLink`: the address opened in a new tab. */
  function TestLinkUrl(shareUrl: string, now: nat, parseUrl: string -> Option<Url.Parsed>): (r: Option<string>)
    ensures r.None? <==> parseUrl(shareUrl).None?
    ensures r.Some? ==> r.value == Url.Href(RefreshedLink(shareUrl, now, parseUrl).value)
  {
    match RefreshedLink(shareUrl, now, parseUrl)
    case None => None
    case Some(v) => Some(Url.Href(v))
  }

  /** What the generator renders: the QR code's value and the in-app path of the link. */
  datatype Card = Card(qrValue: string, internalPath: string)

  /**
   * The render: nothing while the link is empty; otherwise the card, whose in-app path is the
   * refreshed link's path and search. An unparseable link makes the render throw.
   */
  function Render(shareUrl: string, now: nat, parseUrl: string -> Option<Url.Parsed>): (r: Result<Option<Card>, string>)
    ensures shareUrl == "" ==> r == Success(None)
    ensures shareUrl != "" && parseUrl(shareUrl).None? ==> r.Failure?
    ensures shareUrl != "" && parseUrl(shareUrl).Some? ==> r.Success? && r.value.Some?
    ensures r.Success? && r.value.Some? ==>
      && shareUrl != "" && r.value.value.qrValue == shareUrl
      && var v := RefreshedLink(shareUrl, now, parseUrl).value;
         r.value.value.internalPath == v.path + Url.Search(v)
  {
    if shareUrl == "" then Success(None)
    else
      match RefreshedLink(shareUrl, now, parseUrl)
      case None => Failure("Invalid URL")
      case Some(v) => Success(Some(Card(shareUrl, v.path + Url.Search(v))))
  }
}
