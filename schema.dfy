/**
 * The two document models of the store: User and Car, their schema
 * validators, the defaults applied when a Car is constructed, and what a
 * save does (validate, then the pre-save hook refreshes updatedAt).
 */
module Schema {
  import opened Wrappers
  import opened Text

  /** Store-assigned identifiers, modelled as numbers handed out in order. */
  type UserId = nat
  type CarId = nat

  datatype Tags = Tags(carType: string, company: string, dealer: string)

  /** A car document; timestamps are readings of the store's clock. */
  datatype Car = Car(
    title: string,
    description: string,
    images: seq<string>,
    tags: Tags,
    owner: UserId,
    createdAt: nat,
    updatedAt: nat)

  /** A user document; the password is kept and compared as plain text. */
  datatype User = User(id: UserId, username: string, password: string)

  /** Bound enforced by the images validator. */
  const MaxImages: nat := 10

  /** minlength of the password path. */
  const MinPasswordLength: nat := 8

  /** The images validator: at most ten entries. */
  predicate ImagesWithinLimit(images: seq<string>) {
    |images| <= MaxImages
  }

  /** `required: true` on a String path rejects a missing or empty value. */
  predicate TagsPresent(t: Tags) {
    t.carType != "" && t.company != "" && t.dealer != ""
  }

  predicate RequiredPresent(c: Car) {
    c.title != "" && c.description != "" && TagsPresent(c.tags)
  }

  /** Everything the car schema validates before a save is written. */
  predicate CarValid(c: Car) {
    RequiredPresent(c) && ImagesWithinLimit(c.images)
  }

  /** `new Car({...})`: createdAt and updatedAt both default to the current time. */
  function NewCar(title: string, description: string, images: seq<string>, tags: Tags, owner: UserId, now: nat): (c: Car)
    ensures c.createdAt == now && c.updatedAt == now
    ensures c.owner == owner && c.images == images && c.tags == tags
  {
    Car(title, description, images, tags, owner, now, now)
  }

  /**
   * `save()` at time `now`: a document that fails validation is not written;
   * otherwise the pre-save hook sets updatedAt and nothing else changes.
   */
  function SaveCar(c: Car, now: nat): (saved: Option<Car>)
    ensures saved.Some? <==> CarValid(c)
    ensures saved.Some? ==> saved.value.updatedAt == now && saved.value.(updatedAt := c.updatedAt) == c
  {
    if CarValid(c) then Some(c.(updatedAt := now)) else None
  }

  /** `required: true` on username, `minlength: 8` on password, counted in UTF-16 code units. */
  predicate UserValid(u: User) {
    u.username != "" && Utf16Length(u.password) >= MinPasswordLength
  }

  /** Four characters outside the Basic Multilingual Plane already meet the minimum length. */
  lemma FourEmojiPasswordAccepted()
    ensures UserValid(User(0, "driver", "\U{1F697}\U{1F697}\U{1F697}\U{1F697}"))
  {
  }

  predicate UsernameTaken(users: seq<User>, username: string) {
    exists i :: 0 <= i < |users| && users[i].username == username
  }

  /** The unique index on username. */
  predicate UniqueUsernames(users: seq<User>) {
    forall i, j :: 0 <= i < j < |users| ==> users[i].username != users[j].username
  }

  /**
   * `User.create(...)`: rejected by a validator or by the unique index,
   * otherwise appended to the collection.
   */
  function InsertUser(users: seq<User>, u: User): (r: Option<seq<User>>)
    ensures r.Some? <==> UserValid(u) && !UsernameTaken(users, u.username)
    ensures r.Some? ==> r.value == users + [u]
  {
    if UserValid(u) && !UsernameTaken(users, u.username) then Some(users + [u]) else None
  }

  /** An insert that succeeds keeps usernames unique. */
  lemma InsertUserKeepsUnique(users: seq<User>, u: User)
    requires UniqueUsernames(users)
    requires InsertUser(users, u).Some?
    ensures UniqueUsernames(InsertUser(users, u).value)
  {
  }
}
