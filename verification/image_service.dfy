/**
 * The client's image persistence: the two image URLs and a save time kept as JSON under one key
 * of the browser's local storage, and the cache-busting applied to the URLs when they are read
 * back. The clock reading and the URL parser are parameters.
 */
module ImageService {
  import opened Wrappers
  import opened Text
  import opened CacheBusting
  import Json
  import Url
  import Form = FormUrlEncoded

  /** The one storage key the service uses. */
  const StorageKey := "ar_viewer_images"

  /** The browser's `localStorage`: string keys to string values. */
  class LocalStorage {
    var items: map<string, string>

    constructor()
      ensures items == map[]
    {
      items := map[];
    }

    /** `getItem(key)`: the stored string, or null. */
    function GetItem(key: string): (r: Option<string>)
      reads this
      ensures r.Some? <==> key in items
      ensures r.Some? ==> r.value == items[key]
    {
      if key in items then Some(items[key]) else None
    }

    /** `setItem(key, value)`, which throws instead of storing when the storage quota is exhausted. */
    method SetItem(key: string, value: string, quotaExceeded: bool) returns (stored: bool)
      modifies this
      ensures stored == !quotaExceeded
      ensures stored ==> items == old(items)[key := value]
      ensures !stored ==> items == old(items)
    {
      if quotaExceeded {
        stored := false;
      } else {
        items := items[key := value];
        stored := true;
      }
    }

    /** `removeItem(key)`. */
    method RemoveItem(key: string)
      modifies this
      ensures items == old(items) - {key}
    {
      items := items - {key};
    }
  }

  /** What `loadImages` returns: the images (null when absent) and the time they were saved. */
  datatype StoredImages = StoredImages(baseImage: Option<string>, overlayImage: Option<string>, timestamp: Json.Value)

  /** `string | null` as a JSON value. */
  function JsonOf(s: Option<string>): (v: Json.Value)
    ensures Json.Scalar(v)
  {
    match s
    case None => Json.Null
    case Some(t) => Json.Str(t)
  }

  /** The members `saveImages` writes, in the order of the record literal. */
  function StoredMembers(baseImage: Option<string>, overlayImage: Option<string>, now: nat): (ms: seq<(string, Json.Value)>)
    ensures Json.AllScalar(ms)
  {
    [("baseImage", JsonOf(baseImage)), ("overlayImage", JsonOf(overlayImage)), ("timestamp", Json.Number(Decimal(now)))]
  }

  /** The text `saveImages` stores: `JSON.stringify({ baseImage, overlayImage, timestamp })`. */
  function StoredText(baseImage: Option<string>, overlayImage: Option<string>, now: nat): string {
    Json.StringifyObject(StoredMembers(baseImage, overlayImage, now))
  }

  /**
   * `saveImages(baseImage, overlayImage)` at time `now`: the record is written under the one key and
   * no other entry changes. When the storage refuses it, the error is logged and nothing changes.
   */
  method SaveImages(storage: LocalStorage, baseImage: Option<string>, overlayImage: Option<string>, now: nat, quotaExceeded: bool)
    modifies storage
    ensures !quotaExceeded ==> storage.items == old(storage.items)[StorageKey := StoredText(baseImage, overlayImage, now)]
    ensures quotaExceeded ==> storage.items == old(storage.items)
    ensures forall k | k != StorageKey :: storage.GetItem(k) == old(storage.GetItem(k))
  {
    var _ := storage.SetItem(StorageKey, StoredText(baseImage, overlayImage, now), quotaExceeded);
  }

  /** `clearImages()`: the key is removed; no other entry changes. */
  method ClearImages(storage: LocalStorage)
    modifies storage
    ensures storage.GetItem(StorageKey).None?
    ensures forall k | k != StorageKey :: storage.GetItem(k) == old(storage.GetItem(k))
  {
    storage.RemoveItem(StorageKey);
  }

  /**
   * `addCacheBusting(url)` at time `now`. Null and the empty string come back unchanged, and so
   * does a `data:` URL. A URL the parser accepts is re-serialized with its `cb` search parameter
   * set, so it then has exactly one `cb`, whose value is `now`, and its other parameters in their
   * order. Any other text gets `cb=now` appended after `&` or `?`.
   */
  function AddCacheBusting(url: Option<string>, now: nat, parseUrl: string -> Option<Url.Parsed>): (r: Option<string>)
    ensures r.None? <==> url.None?
    ensures !Json.Truthy(if url.Some? then Some(Json.Str(url.value)) else None) ==> r == url
    ensures url.Some? && StartsWith(url.value, "data:") ==> r == url
    ensures url.Some? && url.value != "" && !StartsWith(url.value, "data:") && parseUrl(url.value).None? ==>
      r == Some(CacheBust(url.value, now))
    ensures url.Some? && url.value != "" && !StartsWith(url.value, "data:") && parseUrl(url.value).Some? ==>
      var u := parseUrl(url.value).value;
      exists v: Url.Parsed ::
        && r == Some(Url.Href(v))
        && v.head == u.head && v.path == u.path && v.fragment == u.fragment
        && Form.Count(Url.SearchParams(v), "cb") == 1
        && Form.Get(Url.SearchParams(v), "cb") == Some(Decimal(now))
        && Form.Without(Url.SearchParams(v), "cb") == Form.Without(Url.SearchParams(u), "cb")
  {
    match url
    case None => None
    case Some(s) =>
      if s == "" then url
      else if StartsWith(s, "data:") then url
      else
        match parseUrl(s)
        case Some(u) =>
          var v := Url.SetSearchParam(u, "cb", Decimal(now));
          Some(Url.Href(v))
        case None => Some(CacheBust(s, now))
  }

  /** What `loadImages` returns when nothing usable is stored: no images, the current time. */
  function EmptyImages(now: nat): StoredImages {
    StoredImages(None, None, Json.Number(Decimal(now)))
  }

  /**
   * One image field of the parsed record: a truthy string is cache-busted, a falsy value gives
   * null, and any other truthy value makes `addCacheBusting` throw (`None` here).
   */
  function LoadImageField(v: Option<Json.Value>, now: nat, parseUrl: string -> Option<Url.Parsed>): (r: Option<Option<string>>)
    ensures !Json.Truthy(v) ==> r == Some(None)
    ensures Json.Truthy(v) && v.value.Str? ==> r == Some(AddCacheBusting(Some(v.value.s), now, parseUrl)) && r.value.Some?
    ensures Json.Truthy(v) && !v.value.Str? ==> r.None?
  {
    if !Json.Truthy(v) then Some(None)
    else if v.value.Str? then Some(AddCacheBusting(Some(v.value.s), now, parseUrl))
    else None
  }

  /**
   * `loadImages()` on what the storage holds under the key. Nothing stored, an empty string, text
   * that is not JSON, a JSON `null`, or an image field that is truthy but not a string all give
   * the empty result (the error is logged). Otherwise each image is null when its field is falsy
   * and cache-busted when it is a string, and the timestamp is the stored one when truthy.
   */
  function LoadFrom(saved: Option<string>, now: nat, parseUrl: string -> Option<Url.Parsed>): (r: StoredImages)
    ensures saved.None? || saved.value == "" ==> r == EmptyImages(now)
    ensures saved.Some? && Json.Parse(saved.value).None? ==> r == EmptyImages(now)
    ensures saved.Some? && Json.Parse(saved.value) == Some(Json.Null) ==> r == EmptyImages(now)
  {
    if saved.None? || saved.value == "" then EmptyImages(now)
    else
      match Json.Parse(saved.value)
      case None => EmptyImages(now)
      case Some(parsed) =>
        if parsed.Null? then EmptyImages(now)
        else
          var ms := if parsed.Object? then parsed.members else [];
          var base := LoadImageField(Json.Member(ms, "baseImage"), now, parseUrl);
          var overlay := LoadImageField(Json.Member(ms, "overlayImage"), now, parseUrl);
          var stamp := Json.Member(ms, "timestamp");
          if base.None? || overlay.None? then EmptyImages(now)
          else StoredImages(base.value, overlay.value, if Json.Truthy(stamp) then stamp.value else Json.Number(Decimal(now)))
  }

  /** `loadImages()` at time `now`. */
  function LoadImages(storage: LocalStorage, now: nat, parseUrl: string -> Option<Url.Parsed>): (r: StoredImages)
    reads storage
    ensures storage.GetItem(StorageKey).None? ==> r.baseImage.None? && r.overlayImage.None?
  {
    LoadFrom(storage.GetItem(StorageKey), now, parseUrl)
  }

  // ---- Round trips ----

  /** A decimal numeral is a zero JSON number exactly when it denotes 0. */
  lemma DecimalIsZero(n: nat)
    ensures Json.IsZeroText(Decimal(n)) <==> n == 0
  {
    var d := Decimal(n);
    if n == 0 {
      assert d == "0";
    } else {
      assert IsDigit(d[0]) && d[0] != '0';
      assert !Json.IsZeroText(d);
    }
  }

  /** The members saved are found again by name. */
  lemma StoredMembersLookup(b: Option<string>, o: Option<string>, saved: nat)
    ensures var ms := StoredMembers(b, o, saved);
      && Json.Member(ms, "baseImage") == Some(JsonOf(b))
      && Json.Member(ms, "overlayImage") == Some(JsonOf(o))
      && Json.Member(ms, "timestamp") == Some(Json.Number(Decimal(saved)))
  {
    var ms := StoredMembers(b, o, saved);
    assert ms[..2][..1] == [ms[0]];
    assert ms[..2] == [ms[0], ms[1]];
  }

  /** Loading a record whose fields are the given images and save time. */
  lemma LoadRecord(text: string, ms: seq<(string, Json.Value)>, b: Option<string>, o: Option<string>, saved: nat,
                   now: nat, parseUrl: string -> Option<Url.Parsed>)
    requires text != "" && Json.Parse(text) == Some(Json.Object(ms))
    requires Json.Member(ms, "baseImage") == Some(JsonOf(b))
    requires Json.Member(ms, "overlayImage") == Some(JsonOf(o))
    requires Json.Member(ms, "timestamp") == Some(Json.Number(Decimal(saved)))
    ensures var r := LoadFrom(Some(text), now, parseUrl);
      && r.baseImage == (if b.Some? && b.value != "" then AddCacheBusting(b, now, parseUrl) else None)
      && r.overlayImage == (if o.Some? && o.value != "" then AddCacheBusting(o, now, parseUrl) else None)
      && r.timestamp == Json.Number(Decimal(if saved != 0 then saved else now))
  {
    DecimalIsZero(saved);
  }

  /**
   * Reading back what `saveImages(b, o)` stored at time `saved`: each image is null exactly when it
   * was saved as null or empty and otherwise is the saved one cache-busted (so a `data:` URL comes
   * back exactly as saved); the timestamp is the save time unless that was 0.
   */
  lemma LoadSaved(b: Option<string>, o: Option<string>, saved: nat, now: nat, parseUrl: string -> Option<Url.Parsed>)
    ensures var r := LoadFrom(Some(StoredText(b, o, saved)), now, parseUrl);
      && (r.baseImage.None? <==> b.None? || b.value == "")
      && (r.overlayImage.None? <==> o.None? || o.value == "")
      && (b.Some? && b.value != "" ==> r.baseImage == AddCacheBusting(b, now, parseUrl))
      && (o.Some? && o.value != "" ==> r.overlayImage == AddCacheBusting(o, now, parseUrl))
      && (b.Some? && StartsWith(b.value, "data:") ==> r.baseImage == b)
      && (o.Some? && StartsWith(o.value, "data:") ==> r.overlayImage == o)
      && r.timestamp == Json.Number(Decimal(if saved != 0 then saved else now))
  {
    var ms := StoredMembers(b, o, saved);
    var text := StoredText(b, o, saved);
    Json.ParseStringifyObject(ms);
    StoredMembersLookup(b, o, saved);
    assert text[0] == '{';
    LoadRecord(text, ms, b, o, saved, now, parseUrl);
  }
}
