/**
 * The request handlers over an in-memory store. The store holds the user
 * collection, the car collection keyed by id, the id counters and a clock
 * that every save advances. Each handler takes the identity the token check
 * produced (None when verification failed) as a parameter; the Express
 * routing, JSON bodies and the store's connection are not modelled.
 *
 * Methods without a `Legacy` suffix follow the newer handlers; the `Legacy`
 * ones follow the older TypeScript create and update handlers.
 */
module Backend {
  import opened Wrappers
  import opened Text
  import opened Upload
  import opened Schema
  import opened Requests
  import opened Query
  import opened Api

  /** A stored car satisfies its schema and carries timestamps no later than the clock. */
  ghost predicate Stored(c: Car, clock: nat) {
    CarValid(c) && c.createdAt <= c.updatedAt <= clock
  }

  class CarBackend {
    var users: seq<User>
    var cars: map<CarId, Car>
    var nextUserId: nat
    var nextCarId: nat
    var clock: nat

    ghost predicate Valid()
      reads this
    {
      && UniqueUsernames(users)
      && (forall i :: 0 <= i < |users| ==> UserValid(users[i]) && users[i].id < nextUserId)
      && (forall i, j :: 0 <= i < j < |users| ==> users[i].id != users[j].id)
      && (forall id :: id in cars ==> id < nextCarId && Stored(cars[id], clock))
    }

    constructor ()
      ensures Valid()
      ensures users == [] && cars == map[] && nextUserId == 0 && nextCarId == 0 && clock == 0
    {
      users, cars := [], map[];
      nextUserId, nextCarId, clock := 0, 0, 0;
    }

    /** POST /api/signup: 200 with a new user, or 411 for any refusal of the store. */
    method SignUp(username: string, password: string) returns (r: Response<()>)
      requires Valid()
      modifies this
      ensures Valid()
      ensures r.Ok? <==> username != "" && Utf16Length(password) >= MinPasswordLength && !UsernameTaken(old(users), username)
      ensures r.Ok? ==> r.status == OK && nextUserId == old(nextUserId) + 1
                        && users == old(users) + [User(old(nextUserId), username, password)]
      ensures r.Fail? ==> r == Fail(LENGTH_REQUIRED, UserExists) && users == old(users) && nextUserId == old(nextUserId)
      ensures cars == old(cars) && nextCarId == old(nextCarId) && clock == old(clock)
    {
      var u := User(nextUserId, username, password);
      match InsertUser(users, u)
      case None =>
        r := Fail(LENGTH_REQUIRED, UserExists);
      case Some(updated) =>
        InsertUserKeepsUnique(users, u);
        users, nextUserId := updated, nextUserId + 1;
        r := Ok(OK, ());
    }

    /** POST /api/signin: a token for the user whose username and password both match, else 403. */
    method SignIn(username: string, password: string) returns (r: Response<Token>)
      requires Valid()
      ensures r.Ok? <==> exists i :: 0 <= i < |users| && users[i].username == username && users[i].password == password
      ensures r.Ok? ==> r.status == OK
      ensures r.Ok? ==> forall i :: 0 <= i < |users| && users[i].username == username ==> r.value == Token(users[i].id)
      ensures r.Fail? ==> r == Fail(FORBIDDEN, BadCredentials)
    {
      match FindUser(users, username, password)
      case None =>
        r := Fail(FORBIDDEN, BadCredentials);
      case Some(u) =>
        r := Ok(OK, Token(u.id));
    }

    /**
     * POST /api/createcars, newer handler. The upload middleware runs
     * before the token check; its errors reach the default error handler.
     * A request that is not multipart has no file list (None): mapping over
     * it throws once the fields are checked, and the catch answers 500.
     */
    method CreateCar(files: Option<seq<UploadedFile>>, caller: Option<UserId>, form: CarForm) returns (r: Response<Record>)
      requires Valid()
      modifies this
      ensures Valid()
      ensures RequestUploadError(files, None).Some? ==> r == Fail(SERVER_ERROR, UploadRejected(RequestUploadError(files, None).value))
      ensures RequestUploadError(files, None).None? && caller.None? ==> r == Fail(SERVER_ERROR, Unauthenticated)
      ensures RequestUploadError(files, None).None? && caller.Some? && !FormComplete(form) ==> r == Fail(BAD_REQUEST, MissingFields)
      ensures caller.Some? && FormComplete(form) && files.None? ==> r == Fail(SERVER_ERROR, FilesMissing)
      ensures RequestUploadError(files, None).None? && caller.Some? && FormComplete(form) && files.Some? && |files.value| > MaxImages
              ==> r == Fail(BAD_REQUEST, TooManyImages)
      ensures r.Ok? <==>
                RequestUploadError(files, None).None? && caller.Some? && FormComplete(form) && files.Some? && |files.value| <= MaxImages
      ensures r.Ok? ==>
                && r.status == CREATED
                && r.value.id == old(nextCarId) && r.value.id !in old(cars)
                && cars == old(cars)[r.value.id := r.value.car]
                && nextCarId == old(nextCarId) + 1 && clock == old(clock) + 1
                && r.value.car == Car(form.title, form.description, DataUris(files.value), FormTags(form), caller.value, old(clock), clock)
      ensures r.Fail? ==> cars == old(cars) && nextCarId == old(nextCarId) && clock == old(clock)
      ensures users == old(users) && nextUserId == old(nextUserId)
    {
      var uploadError := RequestUploadError(files, None);
      if uploadError.Some? {
        r := Fail(SERVER_ERROR, UploadRejected(uploadError.value));
        return;
      }
      if caller.None? {
        r := Fail(SERVER_ERROR, Unauthenticated);
        return;
      }
      if !FormComplete(form) {
        r := Fail(BAD_REQUEST, MissingFields);
        return;
      }
      if files.None? {
        r := Fail(SERVER_ERROR, FilesMissing);
        return;
      }
      var images := DataUris(files.value);
      if |images| > MaxImages {
        r := Fail(BAD_REQUEST, TooManyImages);
        return;
      }
      r := Insert(NewCar(form.title, form.description, images, FormTags(form), caller.value, clock));
    }

    /**
     * POST /api/createcars, older handler: the token check runs first, and
     * the upload accepts at most ten files, answering its own errors with 400.
     */
    method CreateCarLegacy(caller: Option<UserId>, files: seq<UploadedFile>, form: CarForm) returns (r: Response<Record>)
      requires Valid()
      modifies this
      ensures Valid()
      ensures caller.None? ==> r == Fail(SERVER_ERROR, Unauthenticated)
      ensures caller.Some? && ReceiveFiles(files, Some(ImagesPerRequest)).Some?
              ==> r == Fail(BAD_REQUEST, UploadRejected(ReceiveFiles(files, Some(ImagesPerRequest)).value))
      ensures caller.Some? && ReceiveFiles(files, Some(ImagesPerRequest)).None? && !FormComplete(form)
              ==> r == Fail(BAD_REQUEST, MissingFields)
      ensures r.Ok? <==> caller.Some? && ReceiveFiles(files, Some(ImagesPerRequest)).None? && FormComplete(form)
      ensures r.Ok? ==>
                && r.status == CREATED
                && r.value.id == old(nextCarId) && r.value.id !in old(cars)
                && cars == old(cars)[r.value.id := r.value.car]
                && nextCarId == old(nextCarId) + 1 && clock == old(clock) + 1
                && r.value.car == Car(form.title, form.description, DataUris(files), FormTags(form), caller.value, old(clock), clock)
      ensures r.Fail? ==> cars == old(cars) && nextCarId == old(nextCarId) && clock == old(clock)
      ensures users == old(users) && nextUserId == old(nextUserId)
    {
      if caller.None? {
        r := Fail(SERVER_ERROR, Unauthenticated);
        return;
      }
      var uploadError := ReceiveFiles(files, Some(ImagesPerRequest));
      if uploadError.Some? {
        r := Fail(BAD_REQUEST, UploadRejected(uploadError.value));
        return;
      }
      if !FormComplete(form) {
        r := Fail(BAD_REQUEST, MissingFields);
        return;
      }
      var imageUrls := DataUris(files);
      if |imageUrls| > MaxImages {
        r := Fail(BAD_REQUEST, TooManyImages);
        return;
      }
      r := Insert(NewCar(form.title, form.description, imageUrls, FormTags(form), caller.value, clock));
    }

    /** `newCar.save()` followed by the insert: the clock advances and the car gets the next id. */
    method Insert(c: Car) returns (r: Response<Record>)
      requires Valid()
      requires CarValid(c) && c.createdAt == c.updatedAt == clock
      modifies this
      ensures Valid()
      ensures r == Ok(CREATED, Record(old(nextCarId), c.(updatedAt := clock)))
      ensures cars == old(cars)[old(nextCarId) := c.(updatedAt := clock)] && old(nextCarId) !in old(cars)
      ensures nextCarId == old(nextCarId) + 1 && clock == old(clock) + 1
      ensures users == old(users) && nextUserId == old(nextUserId)
    {
      clock := clock + 1;
      var saved := SaveCar(c, clock).value;
      cars := cars[nextCarId := saved];
      r := Ok(CREATED, Record(nextCarId, saved));
      nextCarId := nextCarId + 1;
    }

    /** GET /api/cars: the caller's cars, title, description and tags only. */
    method ListCars(caller: Option<UserId>) returns (r: Response<seq<Summary>>)
      requires Valid()
      ensures caller.None? ==> r == Fail(SERVER_ERROR, Unauthenticated)
      ensures caller.Some? ==> r.Ok? && r.status == OK && Lists(r.value, cars, Filter(caller.value, None))
    {
      if caller.None? {
        r := Fail(SERVER_ERROR, Unauthenticated);
        return;
      }
      var rows := Select(Filter(caller.value, None));
      r := Ok(OK, rows);
    }

    /**
     * GET /api/cars/search: 400 unless the keyword is a non-empty string,
     * else the caller's cars where it occurs, ignoring case, in the title,
     * the description or one of the tags.
     */
    method SearchCars(caller: Option<UserId>, keyword: QueryValue) returns (r: Response<seq<Summary>>)
      requires Valid()
      ensures caller.None? ==> r == Fail(SERVER_ERROR, Unauthenticated)
      ensures caller.Some? && !(keyword.Str? && keyword.s != "") ==> r == Fail(BAD_REQUEST, MissingKeyword)
      ensures caller.Some? && keyword.Str? && keyword.s != "" ==>
                r.Ok? && r.status == OK && Lists(r.value, cars, Filter(caller.value, Some(keyword.s)))
    {
      if caller.None? {
        r := Fail(SERVER_ERROR, Unauthenticated);
        return;
      }
      if !keyword.Str? || keyword.s == "" {
        r := Fail(BAD_REQUEST, MissingKeyword);
        return;
      }
      var rows := Select(Filter(caller.value, Some(keyword.s)));
      r := Ok(OK, rows);
    }

    /** `Car.find(filter)` with the summary projection. */
    method Select(f: Filter) returns (rows: seq<Summary>)
      requires Valid()
      ensures Lists(rows, cars, f)
    {
      var ids := Find(cars, f, nextCarId);
      rows := Summaries(cars, ids);
      forall id | id in cars && Selects(f, cars[id]) ensures exists k :: 0 <= k < |rows| && rows[k].id == id {
        var k :| 0 <= k < |ids| && ids[k] == id;
        assert rows[k].id == id;
      }
    }

    /** GET /api/cars/:carId: the caller's car, or 404 whether it is absent or someone else's. */
    method GetCar(caller: Option<UserId>, carId: string) returns (r: Response<Detail>)
      requires Valid()
      ensures caller.None? ==> r == Fail(SERVER_ERROR, Unauthenticated)
      ensures caller.Some? && ParseDecimal(carId).None? ==> r == Fail(SERVER_ERROR, InvalidId)
      ensures caller.Some? && ParseDecimal(carId).Some? && !Owns(cars, ParseDecimal(carId).value, caller.value)
              ==> r == Fail(NOT_FOUND, NotFound)
      ensures r.Ok? <==> caller.Some? && ParseDecimal(carId).Some? && Owns(cars, ParseDecimal(carId).value, caller.value)
      ensures r.Ok? ==> var id := ParseDecimal(carId).value; r == Ok(OK, Describe(id, cars[id]))
    {
      if caller.None? {
        r := Fail(SERVER_ERROR, Unauthenticated);
        return;
      }
      match FindOwned(cars, carId, caller.value)
      case BadId =>
        r := Fail(SERVER_ERROR, InvalidId);
      case Missing =>
        r := Fail(NOT_FOUND, NotFound);
      case Found(id, car) =>
        r := Ok(OK, Describe(id, car));
    }

    /** DELETE /api/cars/:carId: removes exactly the caller's car with that id. */
    method DeleteCar(caller: Option<UserId>, carId: string) returns (r: Response<string>)
      requires Valid()
      modifies this
      ensures Valid()
      ensures caller.None? ==> r == Fail(SERVER_ERROR, Unauthenticated)
      ensures caller.Some? && ParseDecimal(carId).None? ==> r == Fail(SERVER_ERROR, InvalidId)
      ensures caller.Some? && ParseDecimal(carId).Some? && !Owns(old(cars), ParseDecimal(carId).value, caller.value)
              ==> r == Fail(NOT_FOUND, NotFound)
      ensures r.Ok? <==> caller.Some? && ParseDecimal(carId).Some? && Owns(old(cars), ParseDecimal(carId).value, caller.value)
      ensures r.Ok? ==> r == Ok(OK, carId) && cars == old(cars) - {ParseDecimal(carId).value}
      ensures r.Fail? ==> cars == old(cars)
      ensures users == old(users) && nextUserId == old(nextUserId) && nextCarId == old(nextCarId) && clock == old(clock)
    {
      if caller.None? {
        r := Fail(SERVER_ERROR, Unauthenticated);
        return;
      }
      match FindOwned(cars, carId, caller.value)
      case BadId =>
        r := Fail(SERVER_ERROR, InvalidId);
      case Missing =>
        r := Fail(NOT_FOUND, NotFound);
      case Found(id, _) =>
        cars := cars - {id};
        r := Ok(OK, carId);
    }

    /**
     * PUT /api/cars/:carId, newer handler: append images (all or nothing
     * against the ceiling), replace truthy title and description, merge tags
     * field by field, save. A request that is not multipart has no file
     * list (None), which the handler treats as no new images.
     */
    method UpdateCar(files: Option<seq<UploadedFile>>, caller: Option<UserId>, carId: string, form: CarForm)
      returns (r: Response<UpdatedView>)
      requires Valid()
      modifies this
      ensures Valid()
      ensures RequestUploadError(files, None).Some? ==> r == Fail(SERVER_ERROR, UploadRejected(RequestUploadError(files, None).value))
      ensures RequestUploadError(files, None).None? && caller.None? ==> r == Fail(SERVER_ERROR, Unauthenticated)
      ensures RequestUploadError(files, None).None? && caller.Some? && !HasUpdates(form, FileCount(files))
              ==> r == Fail(BAD_REQUEST, NoUpdates)
      ensures RequestUploadError(files, None).None? && caller.Some? && HasUpdates(form, FileCount(files)) && ParseDecimal(carId).None?
              ==> r == Fail(SERVER_ERROR, InvalidId)
      ensures RequestUploadError(files, None).None? && caller.Some? && HasUpdates(form, FileCount(files)) && ParseDecimal(carId).Some?
              && !Owns(old(cars), ParseDecimal(carId).value, caller.value)
              ==> r == Fail(NOT_FOUND, NotFound)
      ensures RequestUploadError(files, None).None? && caller.Some? && HasUpdates(form, FileCount(files)) && ParseDecimal(carId).Some?
              && Owns(old(cars), ParseDecimal(carId).value, caller.value)
              ==> var id := ParseDecimal(carId).value;
                  match ApplyPatch(old(cars)[id], form, NewImages(files))
                  case None =>
                    r == Fail(BAD_REQUEST, TooManyImages)
                  case Some(merged) =>
                    && clock == old(clock) + 1
                    && cars == old(cars)[id := merged.(updatedAt := clock)]
                    && r == Ok(OK, View(id, carId, cars[id]))
      ensures r.Fail? ==> cars == old(cars) && clock == old(clock)
      ensures users == old(users) && nextUserId == old(nextUserId) && nextCarId == old(nextCarId)
    {
      var uploadError := RequestUploadError(files, None);
      if uploadError.Some? {
        r := Fail(SERVER_ERROR, UploadRejected(uploadError.value));
        return;
      }
      if caller.None? {
        r := Fail(SERVER_ERROR, Unauthenticated);
        return;
      }
      if !HasUpdates(form, FileCount(files)) {
        r := Fail(BAD_REQUEST, NoUpdates);
        return;
      }
      var found := FindOwned(cars, carId, caller.value);
      if found.BadId? {
        r := Fail(SERVER_ERROR, InvalidId);
        return;
      }
      if found.Missing? {
        r := Fail(NOT_FOUND, NotFound);
        return;
      }
      var id, car := found.id, found.car;
      var newImages := NewImages(files);
      if |newImages| > 0 {
        var updatedImages := car.images + newImages;
        if |updatedImages| > MaxImages {
          r := Fail(BAD_REQUEST, TooManyImages);
          return;
        }
        car := car.(images := updatedImages);
      }
      if form.title != "" {
        car := car.(title := form.title);
      }
      if form.description != "" {
        car := car.(description := form.description);
      }
      if form.tags.Some? {
        car := car.(tags := MergeTagsFallback(car.tags, form.tags.value));
      }
      assert car == ApplyPatch(found.car, form, newImages).value;
      ApplyPatchPreservesSchema(found.car, form, newImages);
      clock := clock + 1;
      var saved := SaveCar(car, clock).value;
      cars := cars[id := saved];
      r := Ok(OK, View(id, carId, saved));
    }

    /**
     * PUT /api/cars/:carId, older handler: no images; tags merged by spread,
     * so a tag supplied as "" reaches the save, whose validator refuses it.
     */
    method UpdateCarLegacy(caller: Option<UserId>, carId: string, form: CarForm) returns (r: Response<LegacyView>)
      requires Valid()
      modifies this
      ensures Valid()
      ensures caller.None? ==> r == Fail(SERVER_ERROR, Unauthenticated)
      ensures caller.Some? && !HasUpdatesLegacy(form) ==> r == Fail(BAD_REQUEST, NoUpdates)
      ensures caller.Some? && HasUpdatesLegacy(form) && ParseDecimal(carId).None? ==> r == Fail(SERVER_ERROR, InvalidId)
      ensures caller.Some? && HasUpdatesLegacy(form) && ParseDecimal(carId).Some?
              && !Owns(old(cars), ParseDecimal(carId).value, caller.value)
              ==> r == Fail(NOT_FOUND, NotFound)
      ensures caller.Some? && HasUpdatesLegacy(form) && ParseDecimal(carId).Some?
              && Owns(old(cars), ParseDecimal(carId).value, caller.value)
              ==> var id := ParseDecimal(carId).value;
                  var merged := ApplyLegacyPatch(old(cars)[id], form);
                  if CarValid(merged) then
                    && clock == old(clock) + 1
                    && cars == old(cars)[id := merged.(updatedAt := clock)]
                    && r == Ok(OK, LegacyView(merged.title, merged.description, merged.tags))
                  else
                    r == Fail(SERVER_ERROR, SaveRejected)
      ensures r.Fail? ==> cars == old(cars) && clock == old(clock)
      ensures users == old(users) && nextUserId == old(nextUserId) && nextCarId == old(nextCarId)
    {
      if caller.None? {
        r := Fail(SERVER_ERROR, Unauthenticated);
        return;
      }
      if !HasUpdatesLegacy(form) {
        r := Fail(BAD_REQUEST, NoUpdates);
        return;
      }
      var found := FindOwned(cars, carId, caller.value);
      if found.BadId? {
        r := Fail(SERVER_ERROR, InvalidId);
        return;
      }
      if found.Missing? {
        r := Fail(NOT_FOUND, NotFound);
        return;
      }
      var id, car := found.id, found.car;
      if form.title != "" {
        car := car.(title := form.title);
      }
      if form.description != "" {
        car := car.(description := form.description);
      }
      if form.tags.Some? {
        car := car.(tags := MergeTagsSpread(car.tags, form.tags.value));
      }
      assert car == ApplyLegacyPatch(found.car, form);
      var saved := SaveCar(car, clock + 1);
      if saved.None? {
        r := Fail(SERVER_ERROR, SaveRejected);
        return;
      }
      clock := clock + 1;
      cars := cars[id := saved.value];
      r := Ok(OK, LegacyView(saved.value.title, saved.value.description, saved.value.tags));
    }
  }
}
