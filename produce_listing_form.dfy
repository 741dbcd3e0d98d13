/**
 * The add/edit listing form: its field state, the tag and photo lists, loading
 * an owned listing for editing, validation, and saving through the produce
 * service.
 */
module ProduceListingForm {
  import opened Wrappers
  import opened Types
  import opened Text
  import opened Lists
  import opened MockData
  import opened ProduceService

  const LOGIN_REQUIRED := "You must be logged in to list produce."
  const MISSING_FIELDS := "Please fill in all required fields: Name, Category, Price (>0), Quantity (>0), and Location."
  const NOT_OWNED := "Produce not found or you don't have permission to edit it."
  const BAD_PHOTO_URL := "Please enter a valid photo URL (starting with http:// or https://)."
  const SAVE_FAILED := "Failed to save produce."

  /** The form's fields; prices are in cents and dates are `YYYY-MM-DD` text. */
  datatype FormData = FormData(
    name: string,
    category: string,
    description: string,
    price: int,
    unit: string,
    quantityAvailable: int,
    availabilityDateFrom: string,
    availabilityDateTo: string,
    photos: seq<string>,
    location: string,
    tags: seq<string>,
    status: ProduceStatus)

  /** A blank form: first category and unit, quantity 1, available from `today`, the user's location. */
  function InitialData(user: Option<User>, today: string): (d: FormData)
    ensures d.category == PRODUCE_CATEGORIES[0] && d.unit == PRODUCE_UNITS[0]
    ensures d.price == 0 && d.quantityAvailable == 1 && d.status == Active
    ensures d.photos == [] && d.tags == [] && d.availabilityDateFrom == today
    ensures user.Some? && Truthy(user.value.location) ==> d.location == user.value.location.value
    ensures !(user.Some? && Truthy(user.value.location)) ==> d.location == ""
  {
    var location := if user.Some? then OrElse(user.value.location, "") else "";
    FormData("", PRODUCE_CATEGORIES[0], "", 0, PRODUCE_UNITS[0], 1, today, "", [], location, [], Active)
  }

  /** `new Date(s).toISOString().split('T')[0]` for an ISO timestamp: the part before the `T`. */
  function DatePart(s: string): (r: string)
    ensures IsPrefix(r, s) && 'T' !in r
    ensures 'T' !in s ==> r == s
    ensures forall k :: 0 <= k < |s| && s[k] == 'T' && (forall j :: 0 <= j < k ==> s[j] != 'T') ==> r == s[..k]
  {
    var k := FirstCharIndex(s, 'T');
    assert forall j :: 0 <= j < |s[..k]| ==> s[..k][j] != 'T';
    s[..k]
  }

  function DateField(d: Option<string>): string {
    if Truthy(d) then DatePart(d.value) else ""
  }

  /** The form filled from a stored listing. */
  function FromListing(p: Produce): (d: FormData)
    ensures d.name == p.name && d.category == p.category && d.price == p.price
    ensures d.quantityAvailable == p.quantityAvailable && d.photos == p.photos && d.tags == p.tags
    ensures d.location == p.location && d.status == p.status
    ensures d.description == p.description && d.unit == p.unit
    ensures d.availabilityDateFrom == DateField(p.availabilityDateFrom)
    ensures d.availabilityDateTo == DateField(p.availabilityDateTo)
  {
    FormData(p.name, p.category, p.description, p.price, p.unit, p.quantityAvailable,
      DateField(p.availabilityDateFrom), DateField(p.availabilityDateTo), p.photos, p.location, p.tags, p.status)
  }

  /** The validation message, if any required field is missing or not positive. */
  function Validate(d: FormData): (r: Option<string>)
    ensures r.None? <==> d.name != "" && d.category != "" && d.price > 0 && d.quantityAvailable > 0 && d.location != ""
    ensures r.Some? ==> r.value == MISSING_FIELDS
  {
    if d.name == "" || d.category == "" || d.price <= 0 || d.quantityAvailable <= 0 || d.location == ""
    then Some(MISSING_FIELDS) else None
  }

  /** The submission as the form builds it: `photos || [default]` keeps an empty photo list empty. */
  function SubmissionAsWritten(d: FormData, farmerId: string): ProduceDraft {
    ProduceDraft(farmerId, d.name, d.category, d.description, d.price, d.unit, d.quantityAvailable,
      None, Some(d.availabilityDateFrom), Some(d.availabilityDateTo), d.photos, d.location, d.tags, d.status)
  }

  /** An empty photo list is truthy in JavaScript, so the default image is never used. */
  lemma DefaultImageNeverApplied(d: FormData, farmerId: string)
    requires d.photos == []
    ensures SubmissionAsWritten(d, farmerId).photos == []
    ensures DEFAULT_PRODUCE_IMAGE !in SubmissionAsWritten(d, farmerId).photos
  {
  }

  /** The photos a listing is saved with: the default image when none was added. */
  function PhotosOrDefault(photos: seq<string>): (r: seq<string>)
    ensures r != []
    ensures photos != [] ==> r == photos
    ensures photos == [] ==> r == [DEFAULT_PRODUCE_IMAGE]
  {
    if photos == [] then [DEFAULT_PRODUCE_IMAGE] else photos
  }

  /** The submission the form is meant to build: as written, except for the default image. */
  function Submission(d: FormData, farmerId: string): (r: ProduceDraft)
    ensures r == SubmissionAsWritten(d, farmerId).(photos := PhotosOrDefault(d.photos))
    ensures r.photos != []
  {
    SubmissionAsWritten(d, farmerId).(photos := PhotosOrDefault(d.photos))
  }

  function SuccessText(name: string, editing: bool): string {
    "Produce \"" + name + "\" " + (if editing then "updated" else "listed") + " successfully! Redirecting..."
  }

  /** The trimmed, lower-cased tag the input would add. */
  function TagOf(input: string): string {
    Lower(Trim(input))
  }

  /** A URL the form accepts: the raw input starts with `http://` or `https://`. */
  predicate WebUrl(input: string) {
    StartsWith(input, "http://") || StartsWith(input, "https://")
  }

  class ListingForm {
    const user: Option<User>
    const produceId: Option<string>
    var data: FormData
    var tagInput: string
    var photoUrlInput: string
    var error: Option<string>
    var success: Option<string>
    var redirect: Option<string>

    /** Editing when the route carries a listing id. */
    predicate Editing()
      reads this
    {
      Truthy(produceId)
    }

    constructor (user: Option<User>, produceId: Option<string>, today: string)
      ensures this.user == user && this.produceId == produceId
      ensures data == InitialData(user, today)
      ensures tagInput == "" && photoUrlInput == ""
      ensures error.None? && success.None? && redirect.None?
    {
      this.user := user;
      this.produceId := produceId;
      data := InitialData(user, today);
      tagInput := "";
      photoUrlInput := "";
      error := None;
      success := None;
      redirect := None;
    }

    /** The editing effect: a listing the user owns fills the form; anything else is refused. */
    method LoadForEdit(db: Db)
      modifies this
      ensures !Editing() ==> data == old(data) && error == old(error) && redirect == old(redirect)
      ensures Editing() ==>
        var p := ProduceById(db.produce, produceId.value);
        && (p.Some? && user.Some? && p.value.farmerId == user.value.id ==>
              data == FromListing(p.value) && error == old(error) && redirect == old(redirect))
        && (!(p.Some? && user.Some? && p.value.farmerId == user.value.id) ==>
              data == old(data) && error == Some(NOT_OWNED) && redirect == Some(MY_PRODUCE))
      ensures tagInput == old(tagInput) && photoUrlInput == old(photoUrlInput) && success == old(success)
    {
      if Editing() {
        var p := ProduceById(db.produce, produceId.value);
        if p.Some? && user.Some? && p.value.farmerId == user.value.id {
          data := FromListing(p.value);
        } else {
          error := Some(NOT_OWNED);
          redirect := Some(MY_PRODUCE);
        }
      }
    }

    /** `handleAddTag`: a new non-blank tag is appended in lower case; the input is cleared. */
    method AddTag()
      modifies this
      ensures Trim(old(tagInput)) != "" && TagOf(old(tagInput)) !in old(data.tags) ==>
        data.tags == old(data.tags) + [TagOf(old(tagInput))]
      ensures !(Trim(old(tagInput)) != "" && TagOf(old(tagInput)) !in old(data.tags)) ==>
        data.tags == old(data.tags)
      ensures data == old(data).(tags := data.tags) && tagInput == ""
      ensures photoUrlInput == old(photoUrlInput) && error == old(error) && success == old(success)
      ensures redirect == old(redirect)
    {
      var t := TagOf(tagInput);
      if Trim(tagInput) != "" && t !in data.tags {
        data := data.(tags := data.tags + [t]);
      }
      tagInput := "";
    }

    /** `handleRemoveTag`: every copy of the tag is dropped, the rest keep their order. */
    method RemoveTag(tag: string)
      modifies this
      ensures data == old(data).(tags := Filter(old(data.tags), (t: string) => t != tag))
      ensures tagInput == old(tagInput) && photoUrlInput == old(photoUrlInput)
      ensures error == old(error) && success == old(success) && redirect == old(redirect)
    {
      data := data.(tags := Filter(data.tags, (t: string) => t != tag));
    }

    /**
     * `handleAddPhotoUrl`: a new non-blank URL is appended (trimmed) when the raw
     * input starts with a web scheme; otherwise the error shows and the input is
     * kept. A blank or repeated URL just clears the input.
     */
    method AddPhotoUrl()
      modifies this
      ensures var u := Trim(old(photoUrlInput));
        && (u != "" && u !in old(data.photos) && WebUrl(old(photoUrlInput)) ==>
              data.photos == old(data.photos) + [u] && error.None? && photoUrlInput == "")
        && (u != "" && u !in old(data.photos) && !WebUrl(old(photoUrlInput)) ==>
              data.photos == old(data.photos) && error == Some(BAD_PHOTO_URL) && photoUrlInput == old(photoUrlInput))
        && (!(u != "" && u !in old(data.photos)) ==>
              data.photos == old(data.photos) && error == old(error) && photoUrlInput == "")
      ensures data == old(data).(photos := data.photos)
      ensures tagInput == old(tagInput) && success == old(success) && redirect == old(redirect)
    {
      var u := Trim(photoUrlInput);
      var adds := u != "" && u !in data.photos;
      if adds && !WebUrl(photoUrlInput) {
        error := Some(BAD_PHOTO_URL);
      } else {
        if adds {
          data := data.(photos := data.photos + [u]);
          error := None;
        }
        photoUrlInput := "";
      }
    }

    /** `handleRemovePhoto`. */
    method RemovePhoto(photo: string)
      modifies this
      ensures data == old(data).(photos := Filter(old(data.photos), (p: string) => p != photo))
      ensures tagInput == old(tagInput) && photoUrlInput == old(photoUrlInput)
      ensures error == old(error) && success == old(success) && redirect == old(redirect)
    {
      data := data.(photos := Filter(data.photos, (p: string) => p != photo));
    }

    /**
     * `handleSubmit`. `confirmNoPhotos` is the answer to the "continue without
     * photos?" question; `stamp` and `now` are the clock. A new listing goes
     * to the front of the table; an edit updates the listing with the route's
     * id, and fails when it has disappeared.
     */
    method Submit(db: Db, confirmNoPhotos: bool, stamp: nat, now: int)
      modifies this, db`produce
      ensures user.None? ==>
        error == Some(LOGIN_REQUIRED) && db.produce == old(db.produce) && success == old(success) && redirect == old(redirect)
      ensures user.Some? && Validate(data).Some? ==>
        error == Validate(data) && db.produce == old(db.produce) && success == old(success) && redirect == old(redirect)
      ensures user.Some? && Validate(data).None? && data.photos == [] && !confirmNoPhotos ==>
        error == old(error) && db.produce == old(db.produce) && success == old(success) && redirect == old(redirect)
      ensures user.Some? && Validate(data).None? && (data.photos != [] || confirmNoPhotos) && !Editing() ==>
        var p := NewListing(Submission(data, user.value.id), user.value, stamp, now);
        && db.produce == [p] + old(db.produce)
        && error.None? && success == Some(SuccessText(p.name, false)) && redirect == Some(MY_PRODUCE)
      ensures user.Some? && Validate(data).None? && (data.photos != [] || confirmNoPhotos) && Editing() ==>
        var patch := DraftPatch(Submission(data, user.value.id));
        && db.produce == UpdatedTable(old(db.produce), produceId.value, patch, now)
        && (IndexOfId(old(db.produce), produceId.value) >= 0 ==>
              error.None? && success == Some(SuccessText(data.name, true)) && redirect == Some(MY_PRODUCE))
        && (IndexOfId(old(db.produce), produceId.value) == -1 ==>
              error == Some(SAVE_FAILED) && success.None? && redirect == old(redirect))
      ensures data == old(data) && tagInput == old(tagInput) && photoUrlInput == old(photoUrlInput)
    {
      if user.None? {
        error := Some(LOGIN_REQUIRED);
        return;
      }
      var invalid := Validate(data);
      if invalid.Some? {
        error := invalid;
        return;
      }
      if data.photos == [] && !confirmNoPhotos {
        return;
      }
      error := None;
      success := None;
      var draft := Submission(data, user.value.id);
      if Editing() {
        var saved := UpdateProduce(db, produceId.value, DraftPatch(draft), now);
        if saved.Some? {
          success := Some(SuccessText(saved.value.name, true));
          redirect := Some(MY_PRODUCE);
        } else {
          error := Some(SAVE_FAILED);
        }
      } else {
        var saved := AddProduce(db, draft, user.value, stamp, now);
        success := Some(SuccessText(saved.name, false));
        redirect := Some(MY_PRODUCE);
      }
    }
  }

  /** Adding a tag never introduces a duplicate. */
  lemma AddTagKeepsTagsDistinct(tags: seq<string>, input: string)
    requires NoDuplicates(tags)
    ensures var t := TagOf(input);
      Trim(input) != "" && t !in tags ==> NoDuplicates(tags + [t])
  {
    var t := TagOf(input);
    if Trim(input) != "" && t !in tags {
      var s := tags + [t];
      forall i, j | 0 <= i < j < |s| ensures s[i] != s[j] {
        assert s[i] == tags[i];
        if j < |tags| { assert s[j] == tags[j]; } else { assert tags[i] in tags; }
      }
    }
  }

  /** A saved listing always meets the validation rules and belongs to the submitting farmer. */
  lemma SavedListingIsValid(d: FormData, farmer: User, stamp: nat, now: int)
    requires Validate(d).None?
    ensures var p := NewListing(Submission(d, farmer.id), farmer, stamp, now);
      && p.farmerId == farmer.id && p.price > 0 && p.quantityAvailable > 0
      && p.name != "" && p.location != "" && p.photos != []
  {
  }

  /** Removing a tag removes it completely and keeps every other tag. */
  lemma RemoveTagExact(tags: seq<string>, tag: string)
    ensures var r := Filter(tags, (t: string) => t != tag);
      tag !in r && forall t :: t in tags && t != tag ==> t in r
  {
  }
}
