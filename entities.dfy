/** The records the screens hold copies of. Only the fields the modelled logic
    reads or writes are kept; ids are the backend's `_id` unless said otherwise. */
module Entities {
  import opened Optional

  /** A car's image: absent (`null`), a stored path or URL, or a `File` picked in the admin form. */
  datatype Image = NoImage | ImagePath(path: string) | ImageFile(fileName: string)

  /** A vehicle. `id` is absent on the blank record the admin "Add Car" form starts from. */
  datatype Vehicle = Vehicle(
    id: Option<string>,
    name: Option<string>,
    carType: Option<string>,
    price: int,
    transmission: string,
    description: Option<string>,
    image: Image)

  /** A customer as the admin user list returns it. `id` is the field the screen keys
      rows and deletes by; `dbId` is the backend `_id` it displays. */
  datatype User = User(
    id: Option<string>,
    dbId: Option<string>,
    name: Option<string>,
    email: Option<string>,
    phone: string,
    address: string,
    password: string)

  /** A populated `userId` reference. */
  datatype UserRef = UserRef(id: string, email: string)

  /** A populated `carId` reference. */
  datatype CarRef = CarRef(name: string, image: Option<string>)

  datatype Booking = Booking(
    id: string,
    user: Option<UserRef>,
    car: Option<CarRef>,
    pickUpLocation: string,
    startDate: string,
    endDate: string,
    status: string)

  /** A payment; `bookingRef` is the `_id` of its populated `bookingId` reference. */
  datatype Payment = Payment(
    id: string,
    user: Option<UserRef>,
    bookingRef: Option<string>,
    totalAmount: int,
    paymentMethod: string,
    transactionId: Option<string>,
    paymentStatus: string)

  datatype Review = Review(id: string, reviewText: string)

  datatype Notification = Notification(id: string, title: string, message: string, isNew: bool)

  /** A reviews response body: `response.data.reviews`, possibly absent. */
  datatype ReviewsReply = ReviewsReply(reviews: Option<seq<Review>>)

  /** The colour of a status pill. */
  datatype Badge = Yellow | Green | Red

  /** `value || "N/A"`: a missing or empty text shows as "N/A". */
  function OrNA(value: Option<string>): (shown: string)
    ensures Truthy(value) ==> shown == value.value
    ensures !Truthy(value) ==> shown == "N/A"
  {
    if Truthy(value) then value.value else "N/A"
  }

  /** The label never comes out empty, so a cell is never blank. */
  lemma OrNANonEmpty(value: Option<string>)
    ensures OrNA(value) != ""
  {
  }
}

/** The `field?.toLowerCase().includes(term.toLowerCase())` test every search box uses. */
module Search {
  import opened Optional
  import opened Text

  /** A missing field never matches; a present one matches when its lowercased
      text contains the lowercased term. */
  predicate FieldMatches(field: Option<string>, term: string) {
    field.Some? && Includes(Lower(field.value), Lower(term))
  }

  /** The test holds exactly when the field is present and the lowercased term
      occurs at some position of the lowercased field. */
  lemma FieldMatchesOccurs(field: Option<string>, term: string)
    ensures FieldMatches(field, term) <==>
      field.Some? && exists i :: OccursAt(Lower(field.value), Lower(term), i)
  {
    if field.Some? {
      var hay, needle := Lower(field.value), Lower(term);
      IncludesIffOccurs(hay, needle);
      if FieldMatches(field, term) {
        var i :| OccursAt(hay, needle, i);
        assert exists j :: OccursAt(Lower(field.value), Lower(term), j) by {
          assert OccursAt(Lower(field.value), Lower(term), i);
        }
      }
    }
  }

  /** The empty search term matches every field that is present. */
  lemma EmptyTermMatches(field: Option<string>)
    ensures FieldMatches(field, "") <==> field.Some?
  {
    IncludesEmpty(Lower(if field.Some? then field.value else ""));
  }

  /** The search ignores the case of ASCII letters in the term. */
  lemma {:induction false} LowerIdempotent(s: string)
    ensures Lower(Lower(s)) == Lower(s)
  {
    var l := Lower(s);
    assert forall i :: 0 <= i < |s| ==> Lower(l)[i] == LowerChar(LowerChar(s[i])) == l[i];
  }

  lemma TermCaseIgnored(field: Option<string>, term: string)
    ensures FieldMatches(field, Lower(term)) <==> FieldMatches(field, term)
  {
    LowerIdempotent(term);
  }
}
