/**
 * The `ARExperience` document schema of the backend: which fields are required, and the defaults
 * filled in for those left out when a document is created.
 */
module ARExperienceSchema {
  import opened Wrappers
  import opened Scene

  /** A position or rotation as supplied: any component may be left out. */
  datatype PartialVec3 = PartialVec3(x: Option<Num>, y: Option<Num>, z: Option<Num>)

  /** The fields handed to `new ARExperience({...})`; `None` is a field left undefined. */
  datatype Document = Document(
    uniqueId: Option<string>,
    baseImage: Option<string>,
    overlayImage: Option<string>,
    position: Option<PartialVec3>,
    rotation: Option<PartialVec3>,
    scale: Option<Num>,
    timestamp: Option<nat>)

  /** A stored record, every field present. The timestamp is in milliseconds since the epoch. */
  datatype Experience = Experience(
    uniqueId: string,
    baseImage: string,
    overlayImage: string,
    position: Vec3,
    rotation: Vec3,
    scale: Num,
    timestamp: nat)

  /** A component as given, or its default of 0. */
  function OrZero(c: Option<Num>): (r: Num)
    ensures c.Some? ==> r == c.value
    ensures c.None? ==> r == 0.0
  {
    match c
    case Some(v) => v
    case None => 0.0
  }

  /** A nested `{ x, y, z }` path with a default of 0 per component: given components kept, the others 0. */
  function FillVec3(p: Option<PartialVec3>): (v: Vec3)
    ensures p.None? ==> v == Origin
    ensures p.Some? ==> v == Vec3(OrZero(p.value.x), OrZero(p.value.y), OrZero(p.value.z))
  {
    match p
    case None => Origin
    case Some(q) => Vec3(OrZero(q.x), OrZero(q.y), OrZero(q.z))
  }

  /** The `required` check on a string path: it fails for a missing and for an empty string. */
  predicate Satisfied(s: Option<string>) {
    s.Some? && s.value != ""
  }

  /** The names of the required paths that fail their check, in schema order. */
  function MissingPaths(d: Document): (paths: seq<string>)
    ensures paths == [] <==> Satisfied(d.uniqueId) && Satisfied(d.baseImage) && Satisfied(d.overlayImage)
    ensures "uniqueId" in paths <==> !Satisfied(d.uniqueId)
    ensures "baseImage" in paths <==> !Satisfied(d.baseImage)
    ensures "overlayImage" in paths <==> !Satisfied(d.overlayImage)
  {
    (if Satisfied(d.uniqueId) then [] else ["uniqueId"])
    + (if Satisfied(d.baseImage) then [] else ["baseImage"])
    + (if Satisfied(d.overlayImage) then [] else ["overlayImage"])
  }

  /**
   * Creating and validating a document at time `now`: it fails, naming the paths, when a required
   * path is missing or empty; otherwise every field is the one given or its default (0 for each
   * position and rotation component, 1 for the scale, `now` for the timestamp).
   */
  function Create(d: Document, now: nat): (r: Result<Experience, seq<string>>)
    ensures r.Failure? <==> !(Satisfied(d.uniqueId) && Satisfied(d.baseImage) && Satisfied(d.overlayImage))
    ensures r.Failure? ==> r.error == MissingPaths(d) && r.error != []
    ensures r.Success? ==>
      && Some(r.value.uniqueId) == d.uniqueId && r.value.uniqueId != ""
      && Some(r.value.baseImage) == d.baseImage && r.value.baseImage != ""
      && Some(r.value.overlayImage) == d.overlayImage && r.value.overlayImage != ""
      && r.value.position == FillVec3(d.position)
      && r.value.rotation == FillVec3(d.rotation)
      && r.value.scale == (if d.scale.Some? then d.scale.value else UnitScale)
      && r.value.timestamp == (if d.timestamp.Some? then d.timestamp.value else now)
  {
    var missing := MissingPaths(d);
    if missing != [] then Failure(missing)
    else
      Success(Experience(
        d.uniqueId.value, d.baseImage.value, d.overlayImage.value,
        FillVec3(d.position), FillVec3(d.rotation),
        match d.scale case Some(s) => s case None => UnitScale,
        match d.timestamp case Some(t) => t case None => now))
  }

  /** A document that gives every field is stored exactly as given. */
  lemma CreateComplete(e: Experience, now: nat)
    requires e.uniqueId != "" && e.baseImage != "" && e.overlayImage != ""
    ensures var given := Document(
              Some(e.uniqueId), Some(e.baseImage), Some(e.overlayImage),
              Some(PartialVec3(Some(e.position.x), Some(e.position.y), Some(e.position.z))),
              Some(PartialVec3(Some(e.rotation.x), Some(e.rotation.y), Some(e.rotation.z))),
              Some(e.scale), Some(e.timestamp));
            Create(given, now) == Success(e)
  {
  }
}
