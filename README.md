# Car listing backend: a Dafny model of its decision logic

The backend lets users sign up and sign in, then keep a personal collection
of car listings: a title, a description, three tags (car type, company,
dealer), up to ten embedded images, an owner and two timestamps. Every
listing operation except create is scoped to the caller: a car that does
not exist and a car owned by someone else give the same 404.

This project models that logic on an in-memory store:

- `schema.dfy` (module `Schema`): the User and Car documents, the schema
  validators (required fields, at most 10 images, username required and
  unique, password at least 8 UTF-16 code units), the creation defaults and what
  `save()` does, including the pre-save hook that refreshes `updatedAt`.
- `upload.dfy` (`Upload`): the multipart upload stage. It has the image-only
  file filter, the 5 MB limit, the optional file-count limit, and the
  `data:<mime>;base64,<payload>` encoding.
- `requests.dfy` (`Requests`): the pure handler rules. These are the create
  validation and the two "anything to update?" guards. They also cover the
  `||` tag merge of the newer handler and the spread merge of the older
  one, plus the whole merge of an update into a car (`ApplyPatch`).
- `query.dfy` (`Query`): the store queries. These are the exact-match user
  lookup, the owner-scoped `findOne` and the owner-scoped `find` of list
  and search, with the case-insensitive keyword match.
- `api.dfy` (`Api`): status codes, refusal reasons and the response
  projections, including the image reference list of the update response.
- `backend.dfy` (`Backend`): class `CarBackend`. Its fields are the user
  collection, the car map, id counters and a clock. It has one method per
  handler. Methods without a suffix follow the newer JavaScript handlers.
  `CreateCarLegacy` and `UpdateCarLegacy` follow the older TypeScript ones.
  `Valid()` is the store invariant: unique valid users, and every stored car
  passes its schema with `createdAt <= updatedAt <= clock`.
- `text.dfy`, `wrappers.dfy`: decimal ids, ASCII lower-casing, substring
  search and `Option`.

Modelling choices:

- Ids are numbers handed out in order. A route's `:carId` is the string the
  client sent. It is parsed as a decimal number, and a string that does not
  parse makes the query throw. The handler's catch block then answers 500,
  as a cast failure does in the source.
- The token check is a parameter `caller: Option<UserId>`. The verifier
  throws on a bad or missing token rather than returning a falsy value, so
  Express's default error handler answers 500. The middleware's 403 branch
  is never reached and is not modelled.
- In the newer create and update routes the upload middleware runs before
  the token check. Its errors go to the default error handler, giving 500.
  The older create route checks the token first, and its upload callback
  answers upload errors with 400.
- An absent title or description is written `""`, because the handlers
  only test truthiness. Tag sub-fields are `Option<string>`, because the
  older spread merge tells an absent key apart from an empty one.
- Time is a counter. Every save advances it and stamps `updatedAt`.
  `createdAt` is the clock when the document is constructed.
- `find` returns documents in creation order, which is ascending id here.

Behaviours of the code a client may not expect, which the model keeps:

- An authentication failure gives 500, not a distinct status.
- A malformed id gives 500, not 404.
- In the newer routes an upload error gives 500.
- A create request that is not multipart leaves the file list undefined.
  Mapping over it throws after the field check, so the answer is 500 and
  nothing is stored. The newer update treats a missing file list as no
  images.
- The 8-character password minimum counts UTF-16 code units, as
  JavaScript's string length does, so a character outside the Basic
  Multilingual Plane counts twice.
- Title and description are replaced only when non-empty.
- An update that carries images is not idempotent: applying it twice
  appends the images twice (`Requests.ApplyPatchWithImagesNotIdempotent`).
- A `tags` object with no usable field passes the empty-update guard and
  still saves, which refreshes `updatedAt` (`Requests.EmptyTagsObjectIsNoOp`).

## Model

| member | source | states |
|---|---|---|
| `Schema.NewCar` | src/db.ts:63-64 | a newly constructed car has createdAt = updatedAt = the construction time, with the owner, images and tags it was given |
| `Schema.SaveCar` | src/db.ts:47-71 | a save succeeds iff title, description and the three tags are non-empty and there are at most 10 images; a successful save sets updatedAt to the save time and changes no other field |
| `Schema.InsertUser` | src/db.ts:41-44 | creating a user succeeds iff the username is non-empty and not taken and the password is at least 8 UTF-16 code units long; on success the user is appended |
| `Schema.FourEmojiPasswordAccepted` | src/db.ts:43 | a password of four characters outside the Basic Multilingual Plane meets the 8-unit minimum |
| `Schema.InsertUserKeepsUnique` | dist/db.js:51-54 | a successful user insert keeps usernames unique |
| `Upload.FirstUploadErrorNone` | src/index.ts:39-48 | scanning the files in order finds no error iff the count is within maxCount and every remaining file is an image of at most 5 MB |
| `Upload.ReceiveFiles` | dist/index.js:36-45 | the upload is accepted iff every file has an `image/` mimetype and at most 5 MB (and, with a maxCount, there are at most that many files) |
| `Upload.DataUris` | dist/index.js:100 | one stored image per uploaded file, in upload order, each `data:<mime>;base64,<payload>` |
| `Upload.UploadLimitBoundsImages` | src/index.ts:114-119 | after an upload accepted with maxCount 10 there are at most 10 images, so the later "up to 10 images" check never fires |
| `Requests.CompleteFormSatisfiesSchema` | src/db.ts:48-62 | a body that passes the create validation yields a car the schema accepts iff it has at most 10 images |
| `Requests.FallbackMergeKeepsTags` | dist/index.js:174-180 | the fallback merge keeps non-empty tags non-empty; each sub-field is the stored value or a truthy patch value |
| `Requests.MergesAgreeIffNoEmptyTag` | src/index.ts:186 | the spread merge and the fallback merge give the same tags iff the patch supplies no empty sub-field |
| `Requests.SpreadMergeEmptiesTag` | src/db.ts:57-61 | after the spread merge the required tags are all present iff the patch supplies no empty sub-field |
| `Requests.ApplyPatchRefusesOverflow` | dist/index.js:159-167 | the update is refused iff images were uploaded and old plus new images exceed 10 |
| `Requests.ApplyPatchMerges` | dist/index.js:158-181 | an applied update keeps owner and timestamps, makes images = old images followed by new ones, replaces title and description only when non-empty, and sets each tag to the patch value if truthy else the stored one |
| `Requests.ApplyPatchPreservesSchema` | dist/db.js:59-71 | an applied update on a valid car yields a valid car (required fields kept, at most 10 images) |
| `Requests.ApplyPatchIdempotentWithoutImages` | dist/index.js:170-181 | without images, applying the same patch twice gives the same document as applying it once |
| `Requests.ApplyPatchWithImagesNotIdempotent` | dist/index.js:159-168 | with images, a second application appends them again |
| `Requests.EmptyTagsObjectIsNoOp` | dist/index.js:145 | an empty `tags` object passes `hasUpdates` yet leaves the car unchanged |
| `Requests.ApplyLegacyPatch` | src/index.ts:184-186 | the older update never changes images, owner or timestamps |
| `Requests.LegacyPatchMerges` | src/index.ts:184-186 | the older update replaces title and description iff the patch value is non-empty; without a tags object the tags are unchanged; with one, each tag key present in it (even as `""`) overrides the stored value and each absent key keeps it |
| `Requests.LegacyPatchValidIff` | src/index.ts:184-188 | on a valid car the older update leaves a car the save accepts iff no supplied tag is empty |
| `Requests.LegacyEmptyTagRefused` | src/index.ts:186 | concrete case: `carType: ""` empties the stored tag under the spread merge so the save is refused, while the fallback merge leaves the car unchanged |
| `Query.FindUser` | src/index.ts:77-80 | a user is found iff some stored user has exactly that username and that password, and the one found matches both |
| `Query.FindOwned` | dist/index.js:153-157 | the owner-scoped lookup fails on an id that does not parse, reports missing iff no car with that id belongs to the caller, and otherwise returns that car |
| `Query.ForeignCarInvisibleToLookup` | dist/index.js:244-248 | another user's car is indistinguishable from an absent one: removing it does not change any lookup |
| `Query.Find` | dist/index.js:124 | the query returns exactly the ids of stored cars the filter selects, each once, in ascending id order |
| `Query.ForeignCarInvisibleToFind` | dist/index.js:219-228 | another user's car never affects a listing or a search: removing it leaves the result unchanged |
| `Query.SearchWithinList` | dist/index.js:219-221 | every search result is also one of the caller's listed cars |
| `Text.OccursIffSomePosition` | dist/index.js:222-226 | the keyword occurs in a field iff it appears at some position of it |
| `Text.ContainsIgnoreCaseIffSomePosition` | dist/index.js:222-226 | the case-insensitive keyword match holds iff at some position of the field every keyword letter equals the field's letter after ASCII lower-casing |
| `Text.ParseDecimalString` | dist/index.js:191 | a number written in decimal parses back to the same number |
| `Api.ImageRefs` | dist/index.js:189-192 | the update response has one entry per stored image; entry i has id i and url `/api/cars/<carId>/images/<i>` |
| `Api.ImageUrlNamesIndex` | dist/index.js:191 | an image URL starts with the car's image route and the rest parses back to the image's index |
| `Api.ImageRefsDistinct` | dist/index.js:188-192 | no two image entries of the update response share a URL |
| `Backend.CarBackend.SignUp` | dist/index.js:49-66 | 200 with the user appended iff the username is non-empty and free and the password is at least 8 UTF-16 code units long; otherwise 411 and no user added; cars untouched |
| `Backend.CarBackend.SignIn` | src/index.ts:73-96 | a token iff a stored user matches username and password exactly; the token carries the id of the user with that username; otherwise 403 |
| `Backend.CarBackend.CreateCar` | dist/index.js:89-119 | upload error 500, bad token 500, a missing field 400, no file list (not multipart) 500, more than 10 images 400, each with nothing stored; otherwise 201 and exactly one new car under a fresh id, owned by the caller, with the uploaded images in order and createdAt < updatedAt = clock |
| `Backend.CarBackend.CreateCarLegacy` | src/index.ts:100-139 | bad token 500, upload error (non-image, over 5 MB, more than 10 files) 400, a missing field 400, each with nothing stored; otherwise 201 with the same new car as the newer handler |
| `Backend.CarBackend.Insert` | dist/index.js:105-113 | saving a new valid car advances the clock, stamps updatedAt, and stores it under the next unused id |
| `Backend.CarBackend.ListCars` | dist/index.js:120-134 | bad token 500; otherwise 200 with exactly the caller's cars (title, description, tags), one entry each |
| `Backend.CarBackend.Select` | src/index.ts:147 | the query result lists exactly the cars the filter selects, projected to title, description and tags, in ascending id order |
| `Backend.CarBackend.SearchCars` | dist/index.js:207-238 | bad token 500; a missing, empty or non-string keyword 400; otherwise exactly the caller's cars whose title, description or a tag contains the keyword ignoring case |
| `Backend.CarBackend.GetCar` | dist/index.js:239-258 | bad token 500, unparsable id 500; 404 iff the car is absent or someone else's (the same response in both cases); otherwise the car's title, description, tags and images |
| `Backend.CarBackend.DeleteCar` | dist/index.js:259-279 | 404 and nothing removed iff the car is absent or someone else's; on success exactly that car is removed and nothing else changes |
| `Backend.CarBackend.UpdateCar` | dist/index.js:138-206 | refusals in request order (upload 500, token 500, empty update 400 before any lookup, bad id 500, not owned 404, image overflow 400) leave the store unchanged; a missing file list counts as no images; otherwise the car becomes `ApplyPatch` of it with updatedAt = the advanced clock, and the response lists its images as references |
| `Backend.CarBackend.UpdateCarLegacy` | src/index.ts:161-202 | token 500, empty update 400 before any lookup, bad id 500, not owned 404; the spread-merged car is saved iff the schema accepts it (otherwise 500, store unchanged); the response holds only title, description and tags |

## Findings

| source | as written | input that shows it | evidently intended | confidence | as-written member | corrected member |
|---|---|---|---|---|---|---|
| src/index.ts:186 | `car.tags = { ...car.tags, ...tags }` lets a tag supplied as `""` replace the stored tag; the save then fails the required-tag validator and the request answers 500 | stored tags `{sedan, Acme, X}`, body `{ "tags": { "carType": "" } }` | an empty tag keeps the stored value, as the newer handler's `tags.carType or car.tags.carType` fallback does | medium, not executed | `Requests.LegacyEmptyTagRefused` | `Requests.FallbackMergeKeepsTags` |

The older update is kept as written (`Backend.CarBackend.UpdateCarLegacy`).
The newer update (`Backend.CarBackend.UpdateCar`) uses the fallback merge, and
`Requests.ApplyPatchPreservesSchema` proves that its save is never refused.

## Left out

- HTTP plumbing: Express routing, CORS, JSON bodies, response messages and
  the `process.on` handlers. Each handler is a method that returns a status
  and a payload.
- `PUT /api/cars/test-route` (dist/index.js:135-137). It only answers a fixed
  message.
- The database connection and query engine. The store is in memory.
  `$regex` is treated as a literal substring, so regex metacharacters, and
  a keyword that is not a valid regex, are not covered. Lower-casing is
  ASCII only.
- The text index (src/db.ts:74-79). No handler uses it.
- Token signing and verification. The verifier is the `caller` parameter
  and the token is its payload `{ id }`. The missing-secret start-up
  failure is not modelled.
- Multipart decoding and base64 encoding. A file is its mimetype, its size
  and its payload text. File fields other than `images` are not modelled.
- Real timestamps. A counter stands in for the clock.
- Concurrency: the lost-update race between fetch and save, and the race
  on the unique username. The model is sequential.
- Swagger generation (dist/swagger.js, dist/swagger-generate.js). It is
  documentation only.
- Body values that are not strings (arrays or numbers as title, a string
  as `tags`). Fields absent from the body are the empty string, so the
  undefined-field query behaviour of sign-in is not covered.
- Listing results omit the fields other than title, description and tags.
  The `_id` of each row is kept.
