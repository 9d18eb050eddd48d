/**
 * The backend's scene API: `POST /share` uploads the two images, stores a record under a fresh
 * id and answers with a share URL; `GET /ar-experience/:id` answers with the stored record, its
 * image URLs made unique with a `cb` cache-busting parameter.
 *
 * The database collection is a class holding a map from id to record; the image host is a class
 * recording what was sent to it. The upload results, the generated id and the clock reading are
 * parameters.
 */
module ArRoutes {
  import opened Wrappers
  import opened Text
  import opened Scene
  import opened ARExperienceSchema
  import opened CacheBusting

  // ---- The record collection ----

  /** Why `save()` rejected a document. */
  datatype SaveError = ValidationFailed(paths: seq<string>) | DuplicateKey(uniqueId: string)

  /** The `ARExperience` collection, keyed by the unique index on `uniqueId`. */
  class ExperienceStore {
    var records: map<string, Experience>

    /** Each record sits under its own id, and its required strings are not empty. */
    ghost predicate Valid()
      reads this
    {
      forall id | id in records ::
        records[id].uniqueId == id && records[id].baseImage != "" && records[id].overlayImage != ""
    }

    constructor()
      ensures Valid() && records == map[]
    {
      records := map[];
    }

    /** `findOne({ uniqueId: id })`: the record with that id, or nothing when no record has it. */
    function FindOne(id: string): (r: Option<Experience>)
      reads this
      requires Valid()
      ensures r.Some? ==> r.value.uniqueId == id && id in records && records[id] == r.value
      ensures r.None? ==> forall k | k in records :: records[k].uniqueId != id
    {
      if id in records then Some(records[id]) else None
    }

    /**
     * `new ARExperience(d).save()` at time `now`: validation first, then the unique index. A
     * rejected document leaves the collection as it was; an accepted one is added and no
     * existing record is touched.
     */
    method Save(d: Document, now: nat) returns (r: Result<Experience, SaveError>)
      requires Valid()
      modifies this
      ensures Valid()
      ensures match Create(d, now)
        case Failure(paths) => r == Failure(ValidationFailed(paths)) && records == old(records)
        case Success(e) =>
          if e.uniqueId in old(records) then r == Failure(DuplicateKey(e.uniqueId)) && records == old(records)
          else r == Success(e) && records == old(records)[e.uniqueId := e]
      ensures forall k | k in old(records) :: k in records && records[k] == old(records)[k]
    {
      var created := Create(d, now);
      match created
      case Failure(paths) =>
        r := Failure(ValidationFailed(paths));
      case Success(e) =>
        if e.uniqueId in records {
          r := Failure(DuplicateKey(e.uniqueId));
        } else {
          records := records[e.uniqueId := e];
          r := Success(e);
        }
    }
  }

  // ---- The image host ----

  /** The image host, as far as the route sees it: what it was sent. */
  class AssetHost {
    var received: seq<string>

    constructor()
      ensures received == []
    {
      received := [];
    }

    /**
     * `uploadToCloudinary(image)`: sends the image; the host's answer, a hosted URL or an error
     * message, is the given outcome.
     */
    method Upload(image: string, outcome: Result<string, string>) returns (r: Result<string, string>)
      modifies this
      ensures received == old(received) + [image]
      ensures r == outcome
    {
      received := received + [image];
      r := outcome;
    }
  }

  // ---- Responses ----

  /** What the `error` field of a 500 response reports. */
  datatype Cause = UploadFailed(reason: string) | SaveFailed(saveError: SaveError) | LookupFailed(reason: string)

  /** A JSON response: `success: true` with a body, or a status, `success: false`, a message and an optional `error`. */
  datatype Response<T> = Ok(body: T) | Error(status: nat, message: string, cause: Option<Cause>)

  /** The fields of a successful `POST /share` answer. */
  datatype ShareBody = ShareBody(shareUrl: string, uniqueId: string, baseImageUrl: string, overlayImageUrl: string)

  /** The `arData` of a successful `GET /ar-experience/:id` answer. */
  datatype ArData = ArData(baseImage: string, overlayImage: string, position: Vec3, rotation: Vec3, scale: Num)

  /** The body of a `POST /share` request: images are strings or absent, transforms as sent. */
  datatype ShareRequest = ShareRequest(
    baseImage: Option<string>,
    overlayImage: Option<string>,
    position: Option<PartialVec3>,
    rotation: Option<PartialVec3>,
    scale: Option<Num>)

  const MissingImages := "Missing required images"
  const CreateFailed := "Failed to create AR experience"
  const NotFound := "AR experience not found"
  const FetchFailed := "Failed to fetch AR experience"

  // ---- The handlers ----

  /** The document the share route creates from the request, the uploaded URLs and the fresh id. */
  function ShareDocument(req: ShareRequest, baseUrl: string, overlayUrl: string, id: string): Document {
    Document(Some(id), Some(baseUrl), Some(overlayUrl), req.position, req.rotation, req.scale, None)
  }

  /** The link the share route hands out for an id. */
  function ShareLink(protocol: string, host: string, id: string): (url: string)
    ensures |url| >= |id| + 9 && url[|url| - |id| - 9..] == "/ar-view/" + id
  {
    protocol + "://" + host + "/ar-view/" + id
  }

  /**
   * `POST /share`. A request without both images is refused with 400 before anything is sent or
   * stored. Otherwise both images go to the host; if either upload fails (the base image's failure
   * is reported when both do), or the record cannot be saved, the answer is 500 and the
   * collection is unchanged. On success the record under the fresh id holds the uploaded URLs
   * and the transforms as sent (with the schema defaults for parts left out), and the answer
   * carries that id and a link ending in `/ar-view/<id>`.
   */
  method PostShare(
    db: ExperienceStore, assets: AssetHost, req: ShareRequest,
    baseUpload: Result<string, string>, overlayUpload: Result<string, string>,
    freshId: string, now: nat, protocol: string, host: string)
    returns (res: Response<ShareBody>)
    requires db.Valid()
    modifies db, assets
    ensures db.Valid()
    ensures !(Truthy(req.baseImage) && Truthy(req.overlayImage)) ==>
      && res == Error(400, MissingImages, None)
      && db.records == old(db.records) && assets.received == old(assets.received)
    ensures Truthy(req.baseImage) && Truthy(req.overlayImage) ==>
      assets.received == old(assets.received) + [req.baseImage.value, req.overlayImage.value]
    ensures Truthy(req.baseImage) && Truthy(req.overlayImage) && (baseUpload.Failure? || overlayUpload.Failure?) ==>
      && res == Error(500, CreateFailed,
                      Some(UploadFailed(if baseUpload.Failure? then baseUpload.error else overlayUpload.error)))
      && db.records == old(db.records)
    ensures Truthy(req.baseImage) && Truthy(req.overlayImage) && baseUpload.Success? && overlayUpload.Success? ==>
      match Create(ShareDocument(req, baseUpload.value, overlayUpload.value, freshId), now)
      case Failure(paths) =>
        res == Error(500, CreateFailed, Some(SaveFailed(ValidationFailed(paths)))) && db.records == old(db.records)
      case Success(e) =>
        if freshId in old(db.records) then
          res == Error(500, CreateFailed, Some(SaveFailed(DuplicateKey(freshId)))) && db.records == old(db.records)
        else
          res == Ok(ShareBody(ShareLink(protocol, host, freshId), freshId, baseUpload.value, overlayUpload.value))
          && db.records == old(db.records)[freshId := e]
    ensures res.Ok? ==>
      && res.body.uniqueId == freshId && freshId in db.records
      && db.records[freshId].baseImage == res.body.baseImageUrl
      && db.records[freshId].overlayImage == res.body.overlayImageUrl
      && db.records[freshId].position == FillVec3(req.position)
      && db.records[freshId].rotation == FillVec3(req.rotation)
      && db.records[freshId].scale == (if req.scale.Some? then req.scale.value else UnitScale)
      && db.records[freshId].timestamp == now
  {
    if !(Truthy(req.baseImage) && Truthy(req.overlayImage)) {
      return Error(400, MissingImages, None);
    }
    var baseUrl := assets.Upload(req.baseImage.value, baseUpload);
    var overlayUrl := assets.Upload(req.overlayImage.value, overlayUpload);
    if baseUrl.Failure? {
      return Error(500, CreateFailed, Some(UploadFailed(baseUrl.error)));
    }
    if overlayUrl.Failure? {
      return Error(500, CreateFailed, Some(UploadFailed(overlayUrl.error)));
    }
    var saved := db.Save(ShareDocument(req, baseUrl.value, overlayUrl.value, freshId), now);
    if saved.Failure? {
      return Error(500, CreateFailed, Some(SaveFailed(saved.error)));
    }
    res := Ok(ShareBody(ShareLink(protocol, host, freshId), freshId, baseUrl.value, overlayUrl.value));
  }

  /**
   * `GET /ar-experience/:id` at clock reading `now`. A failed lookup answers 500; an id with no
   * record answers 404 without data; otherwise the record's transforms come back as stored and
   * both image URLs are cache-busted with the same number. Reading never changes the collection.
   */
  function GetExperience(db: ExperienceStore, id: string, now: nat, lookupError: Option<string>): (r: Response<ArData>)
    reads db
    requires db.Valid()
    ensures lookupError.Some? ==> r == Error(500, FetchFailed, Some(LookupFailed(lookupError.value)))
    ensures lookupError.None? && (forall k | k in db.records :: db.records[k].uniqueId != id) ==>
      r == Error(404, NotFound, None)
    ensures lookupError.None? && id in db.records ==>
      var e := db.records[id];
      && r.Ok?
      && r.body.baseImage == CacheBust(e.baseImage, now)
      && r.body.overlayImage == CacheBust(e.overlayImage, now)
      && r.body.position == e.position && r.body.rotation == e.rotation && r.body.scale == e.scale
  {
    if lookupError.Some? then Error(500, FetchFailed, Some(LookupFailed(lookupError.value)))
    else
      match db.FindOne(id)
      case None => Error(404, NotFound, None)
      case Some(e) =>
        Ok(ArData(CacheBust(e.baseImage, now), CacheBust(e.overlayImage, now), e.position, e.rotation, e.scale))
  }

  /**
   * Two fetches of one id at different clock readings agree on the transforms; their image URLs
   * are equal exactly when the readings are.
   */
  lemma FetchesDifferOnlyInCacheBuster(db: ExperienceStore, id: string, n1: nat, n2: nat)
    requires db.Valid() && id in db.records
    ensures var a, b := GetExperience(db, id, n1, None), GetExperience(db, id, n2, None);
      && a.Ok? && b.Ok?
      && a.body.position == b.body.position && a.body.rotation == b.body.rotation && a.body.scale == b.body.scale
      && (a.body.baseImage == b.body.baseImage <==> n1 == n2)
      && (a.body.overlayImage == b.body.overlayImage <==> n1 == n2)
  {
    var e := db.records[id];
    if CacheBust(e.baseImage, n1) == CacheBust(e.baseImage, n2) {
      CacheBustInjective(e.baseImage, n1, e.baseImage, n2);
    }
    if CacheBust(e.overlayImage, n1) == CacheBust(e.overlayImage, n2) {
      CacheBustInjective(e.overlayImage, n1, e.overlayImage, n2);
    }
  }

  /**
   * Sharing, then fetching the returned id: the fetch finds the record and returns the transforms
   * as sent (with defaults for parts left out) and the uploaded URLs, cache-busted.
   */
  method ShareThenFetch(
    db: ExperienceStore, assets: AssetHost, req: ShareRequest,
    baseUpload: Result<string, string>, overlayUpload: Result<string, string>,
    freshId: string, now: nat, protocol: string, host: string, later: nat)
    returns (shared: Response<ShareBody>, fetched: Response<ArData>)
    requires db.Valid()
    modifies db, assets
    ensures shared.Ok? ==>
      && fetched.Ok?
      && fetched.body.baseImage == CacheBust(shared.body.baseImageUrl, later)
      && fetched.body.overlayImage == CacheBust(shared.body.overlayImageUrl, later)
      && fetched.body.position == FillVec3(req.position)
      && fetched.body.rotation == FillVec3(req.rotation)
      && fetched.body.scale == (if req.scale.Some? then req.scale.value else UnitScale)
  {
    shared := PostShare(db, assets, req, baseUpload, overlayUpload, freshId, now, protocol, host);
    if shared.Ok? {
      fetched := GetExperience(db, shared.body.uniqueId, later, None);
    } else {
      fetched := Error(404, NotFound, None);
    }
  }
}
