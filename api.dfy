/**
 * What the handlers send back: status codes, the reason behind each
 * refusal, and the projections of a car document used in responses.
 */
module Api {
  import opened Wrappers
  import opened Text
  import opened Schema
  import opened Upload
  import opened Query

  const OK: int := 200
  const CREATED: int := 201
  const BAD_REQUEST: int := 400
  const FORBIDDEN: int := 403
  const NOT_FOUND: int := 404
  const LENGTH_REQUIRED: int := 411
  /**
   * Internal server error: a handler's catch block, and also Express's
   * default error handler, which answers an error thrown by the upload
   * middleware or by the token check.
   */
  const SERVER_ERROR: int := 500

  datatype Reason =
    | Unauthenticated                 // token verification threw
    | UploadRejected(error: UploadError)
    | MissingFields                   // "All fields are required"
    | TooManyImages                   // "Maximum 10 images allowed"
    | NoUpdates                       // "At least one field ... must be provided"
    | NotFound                        // absent, or owned by another user
    | InvalidId                       // the route id does not cast to an id
    | SaveRejected                    // the schema refused the save
    | UserExists                      // sign-up refused by the store
    | BadCredentials                  // "Incorrect credentials"
    | MissingKeyword                  // "Keyword is required for search."
    | FilesMissing                    // `req.files` undefined: mapping over it threw

  datatype Response<T> = Ok(status: int, value: T) | Fail(status: int, reason: Reason)

  /** A `req.query` value: absent, one string, or something else (an array or object). */
  datatype QueryValue = Absent | Str(s: string) | Other

  /** The signed token's payload, `{ id }`; signing itself is not modelled. */
  datatype Token = Token(id: UserId)

  /** A stored car with its id, as returned by create. */
  datatype Record = Record(id: CarId, car: Car)

  /** The `"title description tags"` projection of list and search. */
  datatype Summary = Summary(id: CarId, title: string, description: string, tags: Tags)

  /** The `"title description tags images"` projection of get. */
  datatype Detail = Detail(id: CarId, title: string, description: string, tags: Tags, images: seq<string>)

  /** An image reference of the update response, in place of the image data. */
  datatype ImageRef = ImageRef(id: nat, url: string)

  datatype UpdatedView = UpdatedView(
    id: CarId,
    title: string,
    description: string,
    tags: Tags,
    images: seq<ImageRef>,
    owner: UserId,
    createdAt: nat,
    updatedAt: nat)

  /** The older update handler's response: title, description and tags only. */
  datatype LegacyView = LegacyView(title: string, description: string, tags: Tags)

  function Summarize(id: CarId, c: Car): Summary {
    Summary(id, c.title, c.description, c.tags)
  }

  function Describe(id: CarId, c: Car): Detail {
    Detail(id, c.title, c.description, c.tags, c.images)
  }

  function Summaries(cars: map<CarId, Car>, ids: seq<CarId>): (rows: seq<Summary>)
    requires forall k :: 0 <= k < |ids| ==> ids[k] in cars
    ensures |rows| == |ids| && forall k :: 0 <= k < |ids| ==> rows[k] == Summarize(ids[k], cars[ids[k]])
  {
    seq(|ids|, k requires 0 <= k < |ids| => Summarize(ids[k], cars[ids[k]]))
  }

  /**
   * rows are exactly the summaries of the cars the filter selects, one per
   * car, in ascending id order.
   */
  ghost predicate Lists(rows: seq<Summary>, cars: map<CarId, Car>, f: Filter) {
    && (forall k :: 0 <= k < |rows| ==>
          rows[k].id in cars && Selects(f, cars[rows[k].id]) && rows[k] == Summarize(rows[k].id, cars[rows[k].id]))
    && (forall id :: id in cars && Selects(f, cars[id]) ==> exists k :: 0 <= k < |rows| && rows[k].id == id)
    && (forall k, l :: 0 <= k < l < |rows| ==> rows[k].id < rows[l].id)
  }

  function ImageUrlPrefix(carId: string): string {
    "/api/cars/" + carId + "/images/"
  }

  /** `/api/cars/<carId>/images/<i>`. */
  function ImageUrl(carId: string, i: nat): string {
    ImageUrlPrefix(carId) + DecimalString(i)
  }

  /** `images.map((_, index) => ...)`: one reference per stored image. */
  function ImageRefs(carId: string, n: nat): (refs: seq<ImageRef>)
    ensures |refs| == n
    ensures forall i :: 0 <= i < n ==> refs[i].id == i && refs[i].url == ImageUrl(carId, i)
  {
    seq(n, i requires 0 <= i < n => ImageRef(i, ImageUrl(carId, i)))
  }

  /** The update response of the newer handler. */
  function View(id: CarId, carId: string, c: Car): UpdatedView {
    UpdatedView(id, c.title, c.description, c.tags, ImageRefs(carId, |c.images|), c.owner, c.createdAt, c.updatedAt)
  }

  /** An image URL names the car's route and, after it, the image's index in decimal. */
  lemma ImageUrlNamesIndex(carId: string, i: nat)
    ensures StartsWith(ImageUrl(carId, i), ImageUrlPrefix(carId))
    ensures ParseDecimal(ImageUrl(carId, i)[|ImageUrlPrefix(carId)|..]) == Some(i)
  {
    var p := ImageUrlPrefix(carId);
    assert ImageUrl(carId, i)[|p|..] == DecimalString(i);
    assert ImageUrl(carId, i)[..|p|] == p;
    ParseDecimalString(i);
  }

  /** Each image reference has its own URL: no two entries of the response point at the same image. */
  lemma ImageRefsDistinct(carId: string, n: nat)
    ensures var refs := ImageRefs(carId, n);
            forall i, j :: 0 <= i < j < n ==> refs[i].url != refs[j].url
  {
    var refs := ImageRefs(carId, n);
    forall i, j | 0 <= i < j < n ensures refs[i].url != refs[j].url {
      ImageUrlNamesIndex(carId, i);
      ImageUrlNamesIndex(carId, j);
    }
  }
}
