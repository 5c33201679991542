/**
 * The store queries the handlers issue: the exact-match user lookup of
 * sign-in, the owner-scoped `findOne` of get, update and delete, and the
 * owner-scoped `find` of list and search. Results of `find` come in
 * creation order, which for identifiers handed out in order is ascending id.
 */
module Query {
  import opened Wrappers
  import opened Text
  import opened Schema

  /** `User.findOne({ username, password })`: the first user matching both exactly. */
  function FindUser(users: seq<User>, username: string, password: string): (r: Option<User>)
    ensures r.Some? <==> exists i :: 0 <= i < |users| && users[i].username == username && users[i].password == password
    ensures r.Some? ==> r.value in users && r.value.username == username && r.value.password == password
  {
    if users == [] then None
    else if users[0].username == username && users[0].password == password then Some(users[0])
    else
      var r := FindUser(users[1..], username, password);
      assert forall i :: 1 <= i < |users| ==> users[i] == users[1..][i - 1];
      r
  }

  /** Outcome of `Car.findOne({ _id: carId, owner })`. */
  datatype Lookup =
    | BadId                     // the id does not cast: the query throws
    | Missing                   // absent, or owned by someone else
    | Found(id: CarId, car: Car)

  /** A car with this id exists and belongs to owner. */
  predicate Owns(cars: map<CarId, Car>, id: CarId, owner: UserId) {
    id in cars && cars[id].owner == owner
  }

  function FindOwned(cars: map<CarId, Car>, carId: string, owner: UserId): (r: Lookup)
    ensures r.BadId? <==> ParseDecimal(carId).None?
    ensures r.Missing? <==> ParseDecimal(carId).Some? && !Owns(cars, ParseDecimal(carId).value, owner)
    ensures r.Found? ==> ParseDecimal(carId) == Some(r.id) && Owns(cars, r.id, owner) && r.car == cars[r.id]
  {
    match ParseDecimal(carId)
    case None => BadId
    case Some(id) => if Owns(cars, id, owner) then Found(id, cars[id]) else Missing
  }

  /**
   * Another user's car cannot be told apart from an absent one: the lookup
   * gives the same answer with that car removed from the store.
   */
  lemma ForeignCarInvisibleToLookup(cars: map<CarId, Car>, id: CarId, owner: UserId, carId: string)
    requires id in cars && cars[id].owner != owner
    ensures FindOwned(cars, carId, owner) == FindOwned(cars - {id}, carId, owner)
  {
  }

  /** The filter of list (no keyword) and of search (a keyword). */
  datatype Filter = Filter(owner: UserId, keyword: Option<string>)

  /** The `$or` of search: the keyword occurs, ignoring case, in one of five fields. */
  predicate Matches(c: Car, keyword: string) {
    || ContainsIgnoreCase(c.title, keyword)
    || ContainsIgnoreCase(c.description, keyword)
    || ContainsIgnoreCase(c.tags.carType, keyword)
    || ContainsIgnoreCase(c.tags.company, keyword)
    || ContainsIgnoreCase(c.tags.dealer, keyword)
  }

  predicate Selects(f: Filter, c: Car) {
    c.owner == f.owner && (f.keyword.Some? ==> Matches(c, f.keyword.value))
  }

  /** `Car.find(filter)` over the ids below n, in ascending id order. */
  function Find(cars: map<CarId, Car>, f: Filter, n: nat): (ids: seq<CarId>)
    ensures forall k :: 0 <= k < |ids| ==> ids[k] < n && ids[k] in cars && Selects(f, cars[ids[k]])
    ensures forall id :: id < n && id in cars && Selects(f, cars[id]) ==> id in ids
    ensures forall k, l :: 0 <= k < l < |ids| ==> ids[k] < ids[l]
  {
    if n == 0 then []
    else
      var rest := Find(cars, f, n - 1);
      if n - 1 in cars && Selects(f, cars[n - 1]) then rest + [n - 1] else rest
  }

  /** Another user's car never shows up in a listing or a search: removing it changes nothing. */
  lemma {:induction false} ForeignCarInvisibleToFind(cars: map<CarId, Car>, f: Filter, n: nat, id: CarId)
    requires id in cars && cars[id].owner != f.owner
    ensures Find(cars, f, n) == Find(cars - {id}, f, n)
  {
    if n > 0 {
      var others := cars - {id};
      ForeignCarInvisibleToFind(cars, f, n - 1, id);
      assert (n - 1 in cars && Selects(f, cars[n - 1])) == (n - 1 in others && Selects(f, others[n - 1]));
    }
  }

  /** Every search result is also a listing result. */
  lemma SearchWithinList(cars: map<CarId, Car>, owner: UserId, keyword: string, n: nat)
    ensures forall id :: id in Find(cars, Filter(owner, Some(keyword)), n) ==> id in Find(cars, Filter(owner, None), n)
  {
  }
}
