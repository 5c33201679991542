/**
 * The pure rules the car handlers apply to a request body: the create
 * validation, the "is there anything to update" guards, the two ways the
 * handlers merge a `tags` object into the stored tags, and the merge of an
 * update into a car document.
 */
module Requests {
  import opened Wrappers
  import opened Schema

  /** A `tags` object from a request body; each sub-field may be absent. */
  datatype TagPatch = TagPatch(carType: Option<string>, company: Option<string>, dealer: Option<string>)

  /**
   * The text fields of a create or update body. An absent title or
   * description is written "", since the handlers only test truthiness.
   */
  datatype CarForm = CarForm(title: string, description: string, tags: Option<TagPatch>)

  /** JavaScript truthiness of an optional string. */
  predicate Truthy(o: Option<string>) {
    o.Some? && o.value != ""
  }

  /** The create validation: every one of the six fields is truthy. */
  predicate FormComplete(form: CarForm) {
    && form.title != ""
    && form.description != ""
    && form.tags.Some?
    && Truthy(form.tags.value.carType)
    && Truthy(form.tags.value.company)
    && Truthy(form.tags.value.dealer)
  }

  function FormTags(form: CarForm): (t: Tags)
    requires FormComplete(form)
    ensures TagsPresent(t)
  {
    Tags(form.tags.value.carType.value, form.tags.value.company.value, form.tags.value.dealer.value)
  }

  /** A body that passes the create validation builds a car the schema accepts. */
  lemma CompleteFormSatisfiesSchema(form: CarForm, images: seq<string>, owner: UserId, now: nat)
    requires FormComplete(form)
    ensures CarValid(NewCar(form.title, form.description, images, FormTags(form), owner, now))
            <==> |images| <= MaxImages
  {
  }

  /** `hasUpdates` of the newer update handler. */
  predicate HasUpdates(form: CarForm, fileCount: nat) {
    form.title != "" || form.description != "" || form.tags.Some? || fileCount > 0
  }

  /** The guard of the older update handler, which accepts no files. */
  predicate HasUpdatesLegacy(form: CarForm) {
    form.title != "" || form.description != "" || form.tags.Some?
  }

  /** `value || fallback`. */
  function OrElse(o: Option<string>, fallback: string): string {
    if Truthy(o) then o.value else fallback
  }

  /** The newer tag merge: each sub-field falls back to the stored one unless the patch value is truthy. */
  function MergeTagsFallback(current: Tags, p: TagPatch): Tags {
    Tags(OrElse(p.carType, current.carType), OrElse(p.company, current.company), OrElse(p.dealer, current.dealer))
  }

  /** `{ ...current, ...p }`: every key present in the patch overrides, even with "". */
  function Spread(o: Option<string>, fallback: string): string {
    if o.Some? then o.value else fallback
  }

  function MergeTagsSpread(current: Tags, p: TagPatch): Tags {
    Tags(Spread(p.carType, current.carType), Spread(p.company, current.company), Spread(p.dealer, current.dealer))
  }

  /** The fallback merge never empties a stored tag. */
  lemma FallbackMergeKeepsTags(current: Tags, p: TagPatch)
    ensures TagsPresent(current) ==> TagsPresent(MergeTagsFallback(current, p))
    ensures var t := MergeTagsFallback(current, p);
            && (t.carType == current.carType || (Truthy(p.carType) && t.carType == p.carType.value))
            && (t.company == current.company || (Truthy(p.company) && t.company == p.company.value))
            && (t.dealer == current.dealer || (Truthy(p.dealer) && t.dealer == p.dealer.value))
  {
  }

  /** No supplied sub-field is the empty string. */
  predicate NoEmptyTag(p: TagPatch) {
    p.carType != Some("") && p.company != Some("") && p.dealer != Some("")
  }

  /** The two merges agree exactly when the patch supplies no empty tag (for stored tags that are present). */
  lemma MergesAgreeIffNoEmptyTag(current: Tags, p: TagPatch)
    requires TagsPresent(current)
    ensures MergeTagsSpread(current, p) == MergeTagsFallback(current, p) <==> NoEmptyTag(p)
  {
  }

  /** The spread merge empties a stored tag when the patch supplies "" for it. */
  lemma SpreadMergeEmptiesTag(current: Tags, p: TagPatch)
    ensures TagsPresent(current) ==> (TagsPresent(MergeTagsSpread(current, p)) <==> NoEmptyTag(p))
  {
  }

  /**
   * The newer update applied to the fetched document: append the uploaded
   * images (refusing the whole update past the ceiling), then replace title
   * and description when truthy and merge the tags with `||`.
   * None is the "Maximum 10 images" refusal.
   */
  function ApplyPatch(car: Car, form: CarForm, newImages: seq<string>): Option<Car> {
    if |newImages| > 0 && |car.images + newImages| > MaxImages then None
    else
      var images := if |newImages| > 0 then car.images + newImages else car.images;
      var title := if form.title != "" then form.title else car.title;
      var description := if form.description != "" then form.description else car.description;
      var tags := if form.tags.Some? then MergeTagsFallback(car.tags, form.tags.value) else car.tags;
      Some(car.(images := images, title := title, description := description, tags := tags))
  }

  /** The update is refused exactly when appending would pass the ceiling. */
  lemma ApplyPatchRefusesOverflow(car: Car, form: CarForm, newImages: seq<string>)
    ensures ApplyPatch(car, form, newImages).None? <==> |car.images| + |newImages| > MaxImages && |newImages| > 0
  {
  }

  /**
   * A merged document keeps owner and timestamps, has the old images
   * followed by the new ones, and takes each text field from the patch only
   * when the patch value is truthy.
   */
  lemma ApplyPatchMerges(car: Car, form: CarForm, newImages: seq<string>)
    requires ApplyPatch(car, form, newImages).Some?
    ensures var r := ApplyPatch(car, form, newImages).value;
            && r.owner == car.owner && r.createdAt == car.createdAt && r.updatedAt == car.updatedAt
            && r.images == car.images + newImages
            && r.title == (if form.title != "" then form.title else car.title)
            && r.description == (if form.description != "" then form.description else car.description)
            && (form.tags.None? ==> r.tags == car.tags)
            && (form.tags.Some? ==> r.tags.carType == OrElse(form.tags.value.carType, car.tags.carType))
            && (form.tags.Some? ==> r.tags.company == OrElse(form.tags.value.company, car.tags.company))
            && (form.tags.Some? ==> r.tags.dealer == OrElse(form.tags.value.dealer, car.tags.dealer))
  {
  }

  /** Merging into a car the schema accepts yields a car the schema accepts. */
  lemma ApplyPatchPreservesSchema(car: Car, form: CarForm, newImages: seq<string>)
    requires CarValid(car)
    requires ApplyPatch(car, form, newImages).Some?
    ensures CarValid(ApplyPatch(car, form, newImages).value)
  {
  }

  /** Without images, applying the same patch twice gives the same document as applying it once. */
  lemma ApplyPatchIdempotentWithoutImages(car: Car, form: CarForm)
    requires ApplyPatch(car, form, []).Some?
    ensures ApplyPatch(ApplyPatch(car, form, []).value, form, []) == ApplyPatch(car, form, [])
  {
  }

  /** With images the patch is not idempotent: a second application appends them again. */
  lemma ApplyPatchWithImagesNotIdempotent()
    ensures var car := Car("t", "d", [], Tags("c", "m", "x"), 0, 0, 0);
            var once := ApplyPatch(car, CarForm("", "", None), ["i"]);
            once.Some? && ApplyPatch(once.value, CarForm("", "", None), ["i"]) != once
  {
  }

  /** An empty `tags` object passes `hasUpdates` yet changes nothing. */
  lemma EmptyTagsObjectIsNoOp(car: Car)
    ensures var form := CarForm("", "", Some(TagPatch(None, None, None)));
            HasUpdates(form, 0) && ApplyPatch(car, form, []) == Some(car)
  {
  }

  /**
   * The older update applied to the fetched document: title and description
   * replaced when truthy, tags merged by spread. Images, owner and
   * timestamps are untouched.
   */
  function ApplyLegacyPatch(car: Car, form: CarForm): (r: Car)
    ensures r.images == car.images && r.owner == car.owner
    ensures r.createdAt == car.createdAt && r.updatedAt == car.updatedAt
  {
    var title := if form.title != "" then form.title else car.title;
    var description := if form.description != "" then form.description else car.description;
    var tags := if form.tags.Some? then MergeTagsSpread(car.tags, form.tags.value) else car.tags;
    car.(title := title, description := description, tags := tags)
  }

  /**
   * The older update takes title and description from the patch only when
   * truthy; every tag key present in the patch overrides the stored one,
   * even with "", and absent keys keep the stored value.
   */
  lemma LegacyPatchMerges(car: Car, form: CarForm)
    ensures var r := ApplyLegacyPatch(car, form);
            && r.title == (if form.title != "" then form.title else car.title)
            && r.description == (if form.description != "" then form.description else car.description)
            && (form.tags.None? ==> r.tags == car.tags)
            && (form.tags.Some? ==>
                  r.tags.carType == (if form.tags.value.carType.Some? then form.tags.value.carType.value else car.tags.carType))
            && (form.tags.Some? ==>
                  r.tags.company == (if form.tags.value.company.Some? then form.tags.value.company.value else car.tags.company))
            && (form.tags.Some? ==>
                  r.tags.dealer == (if form.tags.value.dealer.Some? then form.tags.value.dealer.value else car.tags.dealer))
  {
  }

  /** The older merge keeps a valid car valid exactly when no supplied tag is "". */
  lemma LegacyPatchValidIff(car: Car, form: CarForm)
    requires CarValid(car)
    ensures CarValid(ApplyLegacyPatch(car, form)) <==> (form.tags.None? || NoEmptyTag(form.tags.value))
  {
  }

  /**
   * A concrete case of the older merge going wrong: sending `carType: ""`
   * empties the stored tag, so the schema refuses the save; the newer merge
   * keeps the stored tag and the car stays valid.
   */
  lemma LegacyEmptyTagRefused()
    ensures var car := Car("Sedan", "Blue, low mileage", [], Tags("sedan", "Acme", "X"), 0, 0, 0);
            var form := CarForm("", "", Some(TagPatch(Some(""), None, None)));
            && CarValid(car) && HasUpdatesLegacy(form)
            && ApplyLegacyPatch(car, form).tags.carType == ""
            && !CarValid(ApplyLegacyPatch(car, form))
            && ApplyPatch(car, form, []) == Some(car)
  {
  }
}
