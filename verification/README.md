# AR scene sharing — a Dafny model

This project models the persistence-and-sharing core of a small augmented-reality web application.
An AR *scene* has these parts:

- a base image;
- an overlay image;
- the overlay's position, rotation and scale.

The model covers:

- **The backend's scene API** (`ArRoutes`, `ARExperienceSchema`, `CacheBusting`).
  - `POST /share` validates the request, uploads both images and stores one record under a fresh id in a collection with a unique index. It answers with a link ending in `/ar-view/<id>`.
  - `GET /ar-experience/:id` looks the record up. It answers with the record's image URLs made unique by a `cb=<time>` parameter.
  - The record schema supplies the required fields and the defaults for omitted parts.
- **The client's local image store** (`ImageService`).
  - The two image URLs and a save time are kept as JSON under one key of the browser's local storage.
  - Image URLs read back are cache-busted. A URL the WHATWG URL parser accepts gets its `cb` search parameter *set*. `data:` URLs are left alone. Anything else has `cb=` appended.
- **The composer state** (`ARContext`, `ControlPanel`).
  - There are six state cells, each with its own setter, plus `resetAR` and the `useAR` guard.
  - The control panel's per-axis handlers write through them.
- **The share link** (`QRCodeGenerator`, `ARView`).
  - The generator builds either an id link or a query link. The query link carries the whole scene, with each image URL percent-encoded twice.
  - The viewer page loads a scene either by id or from such a query. It switches loading off and writes exactly one of the scene and the error.
  - A round-trip lemma shows that the viewer recovers the scene the generator encoded, for every scene whose seven numbers `parseFloat` reads back from their `toString` text.

The standards the code relies on are modelled in their own modules, far enough for these round trips:

- `encodeURIComponent` / `decodeURIComponent` (ECMA-262, section 19.2.6): `UriComponent`, `Percent`.
- The `application/x-www-form-urlencoded` serializer and parser of the WHATWG URL Standard (section 5): `FormUrlEncoded`.
- The URL record's `search`, `href` and `searchParams.set` (WHATWG URL Standard, sections 4 and 6): `Url`.
- UTF-8 encoding (RFC 3629, section 3) and the WHATWG Encoding Standard's UTF-8 decoder: `Utf8`.
- `JSON.parse`, and `JSON.stringify` of flat records (ECMA-262, section 25.5, with the grammar of ECMA-404): `Json`.

The following are function parameters rather than modelled code:

- numbers are the opaque type `Num`;
- `Number.prototype.toString` is `show` and `parseFloat` is `parse`;
- `Date.now()` is a `now` argument;
- `uuidv4()` is `freshId`;
- the image host's answers are upload outcomes;
- the WHATWG URL parser is `parseUrl`.

## Model

| member | source | states |
|---|---|---|
| ARExperienceSchema.MissingPaths | backend/models/ARExperience.js:5-7 | the required paths failing validation: none exactly when `uniqueId`, `baseImage` and `overlayImage` are all non-empty strings, and each one is named exactly when it fails |
| ARExperienceSchema.Create | backend/models/ARExperience.js:4-20 | a document missing a required string fails with the missing paths; otherwise each field is the given one or its default: 0 per position/rotation component, 1 for scale, the creation time for the timestamp |
| ARExperienceSchema.CreateComplete | backend/models/ARExperience.js:4-20 | a document that supplies every field is stored exactly as given |
| ArRoutes.ExperienceStore.constructor | backend/models/ARExperience.js:5 | the collection starts empty and satisfies the uniqueness invariant |
| ArRoutes.ExperienceStore.FindOne | backend/routes/arRoutes.js:68 | `findOne({uniqueId})` returns the record with that id, and nothing exactly when no record has it |
| ArRoutes.ExperienceStore.Save | backend/models/ARExperience.js:5-19 | `save()` rejects a failing document or a duplicate `uniqueId` and leaves the collection unchanged; otherwise it adds the record under its id; existing records are never changed; the invariant (each record under its own id, required strings non-empty) is preserved |
| ArRoutes.AssetHost.Upload | backend/routes/arRoutes.js:24-27 | an upload sends the image and returns the host's outcome |
| ArRoutes.ShareLink | backend/routes/arRoutes.js:45 | the share URL ends with `/ar-view/` followed by the id |
| ArRoutes.PostShare | backend/routes/arRoutes.js:15-62 | a missing or empty image gives 400 `Missing required images` with no upload and no write; a failed upload or save gives 500 `Failed to create AR experience` with the store unchanged; on success the record under the fresh id holds the uploaded URLs and the transforms as sent (schema defaults for omitted parts) and the answer carries that id and link |
| ArRoutes.GetExperience | backend/routes/arRoutes.js:65-102 | a failed lookup gives 500 `Failed to fetch AR experience`; an unknown id gives 404 `AR experience not found` with no data; otherwise both image URLs are cache-busted with the same number and the transforms are returned as stored; the store is only read |
| ArRoutes.FetchesDifferOnlyInCacheBuster | backend/routes/arRoutes.js:75-92 | two fetches of one id agree on the transforms; their image URLs are equal exactly when the clock readings are |
| ArRoutes.ShareThenFetch | backend/routes/arRoutes.js:33-40 | after a successful share, fetching the returned id finds the record: the uploaded URLs cache-busted and the transforms as sent |
| CacheBusting.CacheBust | backend/routes/arRoutes.js:75-82 | the stored URL is kept as a prefix and is followed by `&` when it contains `?` and by `?` otherwise, then by `cb=` and the number in decimal |
| CacheBusting.CacheBustInjective | backend/routes/arRoutes.js:76-82 | a cache-busted URL determines both the stored URL and the number |
| Text.Decimal | src/services/imageService.ts:41 | a number's decimal text is non-empty, all digits, and has no leading zero |
| Text.DecimalValue | src/services/imageService.ts:41 | decimal text reads back as the number it was written from |
| ImageService.LocalStorage.GetItem | src/services/imageService.ts:47 | `getItem` returns the value stored under the key, and null exactly when there is none |
| ImageService.LocalStorage.SetItem | src/services/imageService.ts:21 | `setItem` stores the value under the key unless the quota is exceeded, in which case nothing changes |
| ImageService.LocalStorage.RemoveItem | src/services/imageService.ts:67 | `removeItem` removes the key and nothing else |
| ImageService.SaveImages | src/services/imageService.ts:14-25 | the JSON record of both images and the save time is written under `ar_viewer_images`; no other key changes; when storage refuses, nothing changes |
| ImageService.ClearImages | src/services/imageService.ts:65-71 | the key is gone afterwards and no other key changes |
| ImageService.AddCacheBusting | src/services/imageService.ts:28-43 | null and empty come back unchanged, and so does a `data:` URL; a parseable URL comes back with exactly one `cb`, holding the time, with its other parameters, path, origin and fragment kept; an unparseable one gets `&cb=` or `?cb=` appended |
| ImageService.LoadImageField | src/services/imageService.ts:53-54 | a falsy field gives null, a string field is cache-busted, and any other truthy value throws |
| ImageService.LoadFrom | src/services/imageService.ts:45-63 | nothing stored, empty text, text that is not JSON, or a JSON `null` all give the empty result |
| ImageService.LoadImages | src/services/imageService.ts:45-63 | with nothing stored, both images are null |
| ImageService.LoadSaved | src/services/imageService.ts:14-56 | after `saveImages(b, o)`, loading gives null exactly where an image was null or empty and the cache-busted image otherwise; a `data:` image comes back exactly as saved; the timestamp is the save time, or `now` when the save time was 0 |
| Json.ParseStringifyObject | src/services/imageService.ts:49 | `JSON.parse` reads `JSON.stringify` of a flat record back as the same record |
| ARContext.SeededState | src/pages/ARView.tsx:147-154 | a provider seeded with a loaded scene starts with that scene's images and transforms, sharing off; with none it starts at the defaults |
| ARContext.ProviderStartAsWritten | src/contexts/ARContext.tsx:22-28 | as written, a provider always starts at the defaults, whatever `initialData` it was given |
| ARContext.ProviderDropsInitialData | src/contexts/ARContext.tsx:22 | a scene with a base image: as written it is lost, but the seeded provider has it |
| ARContext.Composer.constructor | src/contexts/ARContext.tsx:23-28 | (corrected, see ## Findings) a mounted provider's six cells hold the seeded state; without initial data that is both images null, origin position and rotation, scale 1, sharing off |
| ARContext.Composer.SetBaseImage | src/contexts/ARContext.tsx:23 | only the base image changes |
| ARContext.Composer.SetOverlayImage | src/contexts/ARContext.tsx:24 | only the overlay image changes; with null, which is how the viewer removes the overlay, the transform stays |
| ARContext.Composer.SetOverlayPosition | src/contexts/ARContext.tsx:25 | only the position changes |
| ARContext.Composer.SetOverlayRotation | src/contexts/ARContext.tsx:26 | only the rotation changes |
| ARContext.Composer.SetOverlayScale | src/contexts/ARContext.tsx:27 | only the scale changes |
| ARContext.Composer.SetShareEnabled | src/contexts/ARContext.tsx:28 | only the sharing flag changes |
| ARContext.Composer.ResetAR | src/contexts/ARContext.tsx:30-37 | every cell holds its initial value afterwards, whatever it held before |
| ARContext.UseAR | src/contexts/ARContext.tsx:62-68 | outside a provider it fails with `useAR must be used within an ARProvider`; inside one it returns that provider |
| Scene.WithAxis | src/components/ControlPanel.tsx:24-27 | the spread update sets the named component and keeps the other two |
| ControlPanel.Panel.HandlePositionChange | src/components/ControlPanel.tsx:23-28 | the position's axis becomes the slider's first value; the other axes and every other cell are unchanged |
| ControlPanel.Panel.HandleRotationChange | src/components/ControlPanel.tsx:30-35 | the rotation's axis becomes the slider's first value; the other axes and every other cell are unchanged |
| ControlPanel.Panel.HandleScaleChange | src/components/ControlPanel.tsx:37-39 | the scale becomes the slider's first value as given, unclamped; nothing else changes |
| ControlPanel.Panel.HandleReset | src/components/ControlPanel.tsx:41-43 | the state afterwards is the initial state, as after `resetAR` |
| ControlPanel.Panel.HandleShare | src/components/ControlPanel.tsx:45-47 | sharing is switched on and nothing else changes |
| ControlPanel.ShareDisabled | src/components/ControlPanel.tsx:181 | the "Generate QR" button's disabled condition is always false |
| QRCodeGenerator.Or | src/components/QRCodeGenerator.tsx:28-29 | an uploaded URL, when truthy, takes precedence over the raw image |
| QRCodeGenerator.ShareUrlFor | src/components/QRCodeGenerator.tsx:25-62 | no link unless both images are non-empty; with a stored scene's id the link is `origin/ar-view/<id>?t=<time>`; otherwise it is `origin/ar-view?` followed by the serialized query, using hosted URLs when present |
| QRCodeGenerator.ShareUrlEffectAsWritten | src/components/QRCodeGenerator.tsx:23-29 | as written, the effect never produces a link, and it throws if and only if both images are set |
| QRCodeGenerator.AsWrittenNeverLinks | src/components/QRCodeGenerator.tsx:23-29 | for every scene with both images, the effect as written throws while the corrected one makes a link |
| QRCodeGenerator.ParamsBuffer.Append | src/components/QRCodeGenerator.tsx:48-57 | `append` adds the pair at the end and keeps the earlier pairs |
| QRCodeGenerator.BuildQuery | src/components/QRCodeGenerator.tsx:35-57 | the appended pairs are, in order: both images percent-encoded (the overlay only when its encoding is non-empty), `posX` to `rotZ`, `scale` and `t` |
| QRCodeGenerator.Generator.RunEffect | src/components/QRCodeGenerator.tsx:25-62 | (corrected, see ## Findings) the `shareUrl` state becomes the link whenever there is one to make, and is left as it was otherwise |
| QRCodeGenerator.RefreshedLink | src/components/QRCodeGenerator.tsx:85-97 | the refreshed link has exactly one `t`, holding the new time, with every other parameter, path, origin and fragment kept; it is absent exactly when the link does not parse |
| QRCodeGenerator.TestLinkUrl | src/components/QRCodeGenerator.tsx:83-90 | `testLink` opens the refreshed link's serialization, or throws when the link does not parse |
| QRCodeGenerator.Render | src/components/QRCodeGenerator.tsx:92-97 | nothing is rendered while the link is empty; otherwise the QR value is the link and the in-app path is the refreshed link's path and search; a parseable link renders, an unparseable link throws |
| Url.Search | src/components/QRCodeGenerator.tsx:97 | `search` is empty exactly when the query is absent or empty, and is `?` followed by the query otherwise |
| Url.Href | src/components/QRCodeGenerator.tsx:89 | the serialization starts with the URL's origin and path |
| Url.SetSearchParam | src/services/imageService.ts:36 | after `searchParams.set`, the name occurs once with the new value, the other parameters are kept in order, and only the query changed |
| FormUrlEncoded.SetSemantics | src/components/QRCodeGenerator.tsx:86 | setting a name on a parameter list leaves it exactly once with the new value and keeps every other pair in order |
| FormUrlEncoded.GetAt | src/pages/ARView.tsx:57-58 | `get` returns the value of the first pair with that name |
| FormUrlEncoded.ParseSerialize | src/pages/ARView.tsx:57-58 | parsing a serialized parameter list gives back the same list |
| UriComponent.Encode | src/components/QRCodeGenerator.tsx:35-36 | the encoding uses only unreserved characters and `%`, and is empty only for the empty string |
| UriComponent.DecodeEncode | src/pages/ARView.tsx:61-62 | `decodeURIComponent` undoes `encodeURIComponent` for every string |
| Percent.PercentDecodeEscape | src/pages/ARView.tsx:57-58 | percent-decoding undoes percent-escaping of any byte sequence |
| Utf8.DecodeLossyEncode | src/pages/ARView.tsx:57-58 | UTF-8 decoding undoes UTF-8 encoding |
| Utf8.DecodeExactEncode | src/pages/ARView.tsx:61-62 | the strict decoder reads one scalar's UTF-8 encoding back as that scalar |
| ARView.ParamOr | src/pages/ARView.tsx:65-71 | `get(name) \|\| fallback`: the parameter when non-empty, the fallback otherwise |
| ARView.DecodedImage | src/pages/ARView.tsx:61-62 | a missing or empty image parameter gives null; otherwise the result is its `decodeURIComponent`, which may throw |
| ARView.ParseLegacyQuery | src/pages/ARView.tsx:55-88 | a failed image decoding or a missing base image is an error; a missing overlay is not; with a decodable, non-empty base image and a decodable overlay the read succeeds; each number is parsed from its parameter or from `0` (`1` for scale) |
| ARView.LegacyDefaults | src/pages/ARView.tsx:65-71 | a link with only images gives position and rotation (0,0,0) and scale 1 |
| ARView.LoadOutcome | src/pages/ARView.tsx:32-98 | with a route id the result is the fetch's, whatever the query; without one it is the legacy parse's; every failure becomes the page's fixed message |
| ARView.IdTakesPrecedence | src/pages/ARView.tsx:32-55 | with an id the query is never read; without one the fetch is never used |
| ARView.ViewerPage.constructor | src/pages/ARView.tsx:16-24 | the page starts loading, with no error and the empty scene at the origin with scale 1 |
| ARView.ViewerPage.LoadARData | src/pages/ARView.tsx:28-98 | every load ends with loading off and exactly one of the scene and the error written |
| ARView.SceneLookup | src/pages/ARView.tsx:57-71 | on a query link's pairs, each scene parameter is read back by name |
| ARView.ShareLinkRoundTrip | src/pages/ARView.tsx:57-87 | the query link made for a scene with both images, read back by the viewer's legacy path, gives that exact scene, provided `parse` undoes `show` on the scene's seven numbers |
| ARView.FollowShareLink | src/pages/ARView.tsx:28-98 | following a query link ends with loading off, the scene the link was made for, and the error cell unchanged |

## Left out

- The WHATWG URL parser (`new URL`) is a parameter. Only the record's `search`, `href` and `searchParams.set` are modelled.
- Floating-point numbers are not modelled.
  - Position, rotation and scale are opaque values that are only stored and passed along.
  - `toString` and `parseFloat` are parameters. The round trip requires, for each of the scene's seven numbers only, that `parse` undoes `show` and that `show` does not give the empty string.
  - Numbers are mathematical reals, so NaN, infinities and `-0` have no counterpart. `-0` prints as `0` and would come back as `+0`; NaN would not compare equal to itself.
  - `toFixed` and the slider bounds are not modelled.
- `Date.now()` is one reading per call.
  - `loadImages` actually reads the clock separately for each image and for the default timestamp.
  - `addCacheBusting` reads it separately for the parse and fallback paths.
  - Both handlers of the backend read it once, as modelled.
- `Promise.all` is two sequential uploads. When both fail, the model reports the base image's failure; the real handler reports whichever rejects first.
- ArRoutes.PostShare: database failures other than validation and the unique index are left out. Examples are a lost connection, Mongoose casting of wrongly typed fields, and `null` transform values.
  - Error texts from the host and the database are opaque strings.
- ArRoutes.PostShare: request images are strings or absent. A JSON body whose image is a truthy non-string, such as a number or an object, passes the `!baseImage` guard and reaches the upload in the code; the model has no such input.
- ArRoutes.GetExperience: a failing lookup is a `lookupError` parameter, not modelled database behaviour.
- `fetchARExperience` is imported by `src/pages/ARView.tsx` but not exported by `src/services/imageService.ts`. The id path's fetch is therefore an abstract outcome, `fetched`.
- ImageService.LoadFrom: JSON numbers keep their text, and a numeral is falsy only when every digit before its exponent is 0. A numeral such as `1e-400` that underflows to 0 in JavaScript, and so is falsy there, counts as truthy in the model. Only numerals that `saveImages` writes, whole millisecond counts, are covered by the lemmas.
- ImageService.LoadFrom: its contract states only the empty cases. The loaded record is stated by ImageService.LoadSaved for the text that `saveImages` writes. Other stored JSON is covered by the function's definition alone.
- `JSON.stringify` is modelled for flat records of strings, `null` and integer numbers only, which is all `saveImages` writes.
- JSON `\u` escapes that denote lone surrogates make the model's `JSON.parse` fail, because Dafny strings cannot hold them.
  - For the same reason `encodeURIComponent` never throws here.
- Local storage errors other than an exhausted quota, and `removeItem` failures, are not modelled.
- The user interface is not modelled: toasts, clipboard access, QR rendering, the 3D viewer (`src/components/ARViewer.tsx`, apart from its `setOverlayImage(null)` call), the image uploader, and the landing and not-found pages.
- The Cloudinary clients (`src/utils/cloudinaryUtils.ts`, `backend/utils/cloudinaryUtils.js`, `utils/cloudinaryUtils.js`) are left out. Uploads are an abstract success-or-failure outcome.
- Server wiring, static serving, CORS, configuration and the database connection are left out.
- React's render scheduling and batching of state updates are not modelled. Each setter takes effect at once, in program order.
- The code's composer defaults are used: position and rotation (0,0,0), scale 1.
- Neither the frontend nor the backend retries a failed request or sets a timeout.

## Findings

| source | as written | input that shows it | evidently intended | confidence | as-written member | corrected member |
|---|---|---|---|---|---|---|
| src/components/QRCodeGenerator.tsx:23-29 | `cloudinaryUrls` is destructured from the composer context, which never provides it, so `cloudinaryUrls.baseImage` reads a property of `undefined` | any scene with both images set, e.g. base `a.png`, overlay `b.png` | treat the uploaded-URL record as absent and build the link from the images | not executed | QRCodeGenerator.ShareUrlEffectAsWritten (shown by QRCodeGenerator.AsWrittenNeverLinks) | QRCodeGenerator.ShareUrlFor (used by QRCodeGenerator.Generator.RunEffect) |
| src/contexts/ARContext.tsx:22 | the viewer passes the loaded scene as `initialData`, but the provider accepts only `children`, so its state starts at the defaults | any loaded scene with a base image, e.g. `baseImage = "a.png"` | the provider's cells start from `initialData` | not executed | ARContext.ProviderStartAsWritten (shown by ARContext.ProviderDropsInitialData) | ARContext.SeededState (used by ARContext.Composer.constructor) |
