/** The customer catalog (the newer `car/carCard.jsx`): search, the car detail
    overlay with its reviews, the booking form, and the hand-over to the
    payment page through the session's "bookingId" and the navigation state. */
module CarListing {
  import opened Optional
  import opened Http
  import opened Text
  import opened Lists
  import opened Session
  import opened Pricing
  import opened Entities
  import opened Search

  /** A car is listed when its name or its type contains the search term, ignoring case. */
  predicate CarMatches(car: Vehicle, term: string) {
    FieldMatches(car.name, term) || FieldMatches(car.carType, term)
  }

  /** `filteredCars`. */
  function FilteredCars(cars: seq<Vehicle>, term: string): (r: seq<Vehicle>)
    ensures forall c :: c in r <==> c in cars && CarMatches(c, term)
    ensures forall c :: multiset(r)[c] == if CarMatches(c, term) then multiset(cars)[c] else 0
    ensures IsSubsequence(r, cars)
  {
    Filter(cars, c => CarMatches(c, term))
  }

  /** With an empty search box every car that has a name or a type is listed, in order. */
  lemma EmptySearchKeepsNamedCars(cars: seq<Vehicle>)
    requires forall c :: c in cars ==> c.name.Some? || c.carType.Some?
    ensures FilteredCars(cars, "") == cars
  {
    forall c | c in cars ensures CarMatches(c, "") {
      EmptyTermMatches(c.name);
      EmptyTermMatches(c.carType);
    }
    FilterKeepsAll(cars, c => CarMatches(c, ""));
  }

  /** The booking form. Dates are kept as the strings the date inputs hold. */
  datatype BookingForm = BookingForm(
    name: string, contact: string, pickUpLocation: string,
    startDate: string, endDate: string, status: string, driverDays: int)

  const EmptyForm := BookingForm("", "", "", "", "", "", 0)

  datatype TextField = NameField | ContactField | PickUpField | StartDateField | EndDateField

  /** One `onChange` of the booking form. */
  datatype FormInput = TextInput(field: TextField, value: string) | DriverDaysInput(days: int)

  function TextValue(form: BookingForm, f: TextField): string {
    match f
    case NameField => form.name
    case ContactField => form.contact
    case PickUpField => form.pickUpLocation
    case StartDateField => form.startDate
    case EndDateField => form.endDate
  }

  /** `handleInputChange`: `{ ...prevData, [name]: value }`. */
  function ApplyInput(form: BookingForm, input: FormInput): (r: BookingForm)
    ensures forall f :: TextValue(r, f) == if input.TextInput? && input.field == f then input.value else TextValue(form, f)
    ensures r.driverDays == if input.DriverDaysInput? then input.days else form.driverDays
    ensures r.status == form.status
  {
    match input
    case DriverDaysInput(d) => form.(driverDays := d)
    case TextInput(f, v) =>
      match f
      case NameField => form.(name := v)
      case ContactField => form.(contact := v)
      case PickUpField => form.(pickUpLocation := v)
      case StartDateField => form.(startDate := v)
      case EndDateField => form.(endDate := v)
  }

  datatype BookingRequest = BookingRequest(
    userId: Option<string>, carId: Option<string>, pickUpLocation: string,
    startDate: string, endDate: string, status: string, driverDays: int)

  /** The reservation body: always "pending", for the selected car and the session's user. */
  function BookingPayload(userId: Option<string>, selected: Option<Vehicle>, form: BookingForm): (r: BookingRequest)
    ensures r.status == "pending" && r.userId == userId
    ensures r.carId == if selected.Some? then selected.value.id else None
    ensures r.pickUpLocation == form.pickUpLocation && r.startDate == form.startDate
    ensures r.endDate == form.endDate && r.driverDays == form.driverDays
  {
    BookingRequest(userId, if selected.Some? then selected.value.id else None,
                   form.pickUpLocation, form.startDate, form.endDate, "pending", form.driverDays)
  }

  /** The reservation response body: its `bookingId` and `_id`. */
  datatype BookingReply = BookingReply(bookingId: Option<string>, dbId: Option<string>)

  /** `response.data?.bookingId || response.data?._id`, read as the `!bookingId` test reads it. */
  function ReturnedBookingId(data: Option<BookingReply>): (r: Option<string>)
    ensures r.Some? ==> r.value != ""
    ensures data.Some? && Truthy(data.value.bookingId) ==> r == data.value.bookingId
    ensures data.Some? && !Truthy(data.value.bookingId) && Truthy(data.value.dbId) ==> r == data.value.dbId
    ensures r.None? <==> data.None? || (!Truthy(data.value.bookingId) && !Truthy(data.value.dbId))
  {
    if data.None? then None
    else if Truthy(data.value.bookingId) then data.value.bookingId
    else if Truthy(data.value.dbId) then data.value.dbId
    else None
  }

  /** The navigation state handed to the payment page. */
  datatype PaymentNav = PaymentNav(
    bookingId: string, carId: Option<string>, carName: Option<string>, pricePerDay: Option<int>,
    rentalDays: int, driverDays: int, pickUpLocation: string, startDate: string, endDate: string)

  datatype ReviewRequest = ReviewRequest(userId: string, carId: Option<string>, reviewText: string)

  /** `response.data.reviews || []`, and `[]` when the request fails. */
  function ReviewsFrom(response: Outcome<ReviewsReply>): (r: seq<Review>)
    ensures response.Ok? && response.data.reviews.Some? ==> r == response.data.reviews.value
    ensures response.Failed? || response.data.reviews.None? ==> r == []
  {
    match response
    case Ok(data) => if data.reviews.Some? then data.reviews.value else []
    case Failed => []
  }

  class CarListingView {
    const store: SessionStore
    var cars: seq<Vehicle>
    var searchTerm: string
    var selectedCar: Option<Vehicle>
    var showBookingForm: bool
    var formData: BookingForm
    var reviews: seq<Review>
    var newReview: string
    var alerts: seq<string>
    /** The last navigation to the payment page, if any. */
    var navigation: Option<PaymentNav>

    constructor (store: SessionStore)
      ensures this.store == store
      ensures cars == [] && searchTerm == "" && selectedCar == None && !showBookingForm
      ensures formData == EmptyForm && reviews == [] && newReview == "" && alerts == [] && navigation == None
    {
      this.store := store;
      cars := [];
      searchTerm := "";
      selectedCar := None;
      showBookingForm := false;
      formData := EmptyForm;
      reviews := [];
      newReview := "";
      alerts := [];
      navigation := None;
    }

    /** The cars the grid shows: the matching cars, every copy, in list order. */
    function Shown(): (r: seq<Vehicle>)
      reads this
      ensures forall c :: c in r <==> c in cars && CarMatches(c, searchTerm)
      ensures forall c :: multiset(r)[c] == if CarMatches(c, searchTerm) then multiset(cars)[c] else 0
      ensures IsSubsequence(r, cars)
    {
      FilteredCars(cars, searchTerm)
    }

    /** The mount fetch: the list is replaced on success; a failure is only logged. */
    method FetchCars(response: Outcome<seq<Vehicle>>)
      modifies this
      ensures cars == if response.Ok? then response.data else old(cars)
      ensures searchTerm == old(searchTerm) && selectedCar == old(selectedCar) && showBookingForm == old(showBookingForm)
      ensures formData == old(formData) && reviews == old(reviews) && newReview == old(newReview)
      ensures alerts == old(alerts) && navigation == old(navigation)
    {
      if response.Ok? {
        cars := response.data;
      }
    }

    method HandleSearchChange(value: string)
      modifies this
      ensures searchTerm == value
      ensures cars == old(cars) && selectedCar == old(selectedCar) && showBookingForm == old(showBookingForm)
      ensures formData == old(formData) && reviews == old(reviews) && newReview == old(newReview)
      ensures alerts == old(alerts) && navigation == old(navigation)
    {
      searchTerm := value;
    }

    /** The booking modal's Cancel button closes it; the form and the selection stay. */
    method CancelBookingForm()
      modifies this
      ensures !showBookingForm
      ensures cars == old(cars) && searchTerm == old(searchTerm) && selectedCar == old(selectedCar)
      ensures formData == old(formData) && reviews == old(reviews) && newReview == old(newReview)
      ensures alerts == old(alerts) && navigation == old(navigation)
    {
      showBookingForm := false;
    }

    method HandleInputChange(input: FormInput)
      modifies this
      ensures formData == ApplyInput(old(formData), input)
      ensures cars == old(cars) && searchTerm == old(searchTerm) && selectedCar == old(selectedCar)
      ensures showBookingForm == old(showBookingForm) && reviews == old(reviews) && newReview == old(newReview)
      ensures alerts == old(alerts) && navigation == old(navigation)
    {
      formData := ApplyInput(formData, input);
    }

    /** `handleFormSubmit`. `startMs`/`endMs` are what `new Date` yields for the two
        date strings; `response` is the server's answer to the reservation POST. */
    method HandleFormSubmit(startMs: int, endMs: int, response: Outcome<Option<BookingReply>>)
      returns (sent: BookingRequest)
      modifies this, store
      ensures sent == BookingPayload(Get(old(store.items), UserIdKey), old(selectedCar), old(formData))
      ensures cars == old(cars) && searchTerm == old(searchTerm) && formData == old(formData)
      ensures reviews == old(reviews) && newReview == old(newReview)
      ensures var id := if response.Ok? then ReturnedBookingId(response.data) else None;
        if id.Some? then
          && store.items == old(store.items)[BookingIdKey := id.value]
          && !showBookingForm && selectedCar == None && alerts == old(alerts)
          && navigation == Some(PaymentNav(
               id.value, sent.carId,
               if old(selectedCar).Some? then old(selectedCar).value.name else None,
               if old(selectedCar).Some? then Some(old(selectedCar).value.price) else None,
               CalculateDays(startMs, endMs), formData.driverDays, formData.pickUpLocation,
               formData.startDate, formData.endDate))
        else
          && store.items == old(store.items)
          && showBookingForm == old(showBookingForm) && selectedCar == old(selectedCar)
          && navigation == old(navigation)
          && alerts == old(alerts) + [if response.Ok? then "Booking ID not received from the server!"
                                      else "Failed to book the car. Please try again."]
    {
      var userId := store.GetItem(UserIdKey);
      sent := BookingPayload(userId, selectedCar, formData);
      match response {
        case Failed =>
          alerts := alerts + ["Failed to book the car. Please try again."];
        case Ok(data) =>
          var bookingId := ReturnedBookingId(data);
          if bookingId.None? {
            alerts := alerts + ["Booking ID not received from the server!"];
            return;
          }
          store.SetItem(BookingIdKey, bookingId.value);
          var car := selectedCar;
          showBookingForm := false;
          selectedCar := None;
          navigation := Some(PaymentNav(
            bookingId.value, sent.carId,
            if car.Some? then car.value.name else None,
            if car.Some? then Some(car.value.price) else None,
            CalculateDays(startMs, endMs), formData.driverDays, formData.pickUpLocation,
            formData.startDate, formData.endDate));
      }
    }

    /** "Book Now": the form opens only for a logged-in user. */
    method HandleBookClick()
      modifies this
      ensures LoggedIn(store.items) ==> showBookingForm && alerts == old(alerts)
      ensures !LoggedIn(store.items) ==> showBookingForm == old(showBookingForm)
                                         && alerts == old(alerts) + ["You need to log in to book a car."]
      ensures cars == old(cars) && searchTerm == old(searchTerm) && selectedCar == old(selectedCar)
      ensures formData == old(formData) && reviews == old(reviews) && newReview == old(newReview)
      ensures navigation == old(navigation)
    {
      var userId := store.GetItem(UserIdKey);
      if !Truthy(userId) {
        alerts := alerts + ["You need to log in to book a car."];
        return;
      }
      showBookingForm := true;
    }

    /** `fetchReviews`: the list is emptied first, then replaced by the response. */
    method FetchReviews(response: Outcome<ReviewsReply>)
      modifies this
      ensures reviews == ReviewsFrom(response)
      ensures cars == old(cars) && searchTerm == old(searchTerm) && selectedCar == old(selectedCar)
      ensures showBookingForm == old(showBookingForm) && formData == old(formData) && newReview == old(newReview)
      ensures alerts == old(alerts) && navigation == old(navigation)
    {
      reviews := [];
      reviews := ReviewsFrom(response);
    }

    /** `handleReviewSubmit`: `sent` is the review POST's body, if one was sent.
        On success the input is cleared and `fetchReviews` runs again; `refetch` is
        that request's answer. Every other path leaves the reviews as they were. */
    method HandleReviewSubmit(response: Outcome<()>, refetch: Outcome<ReviewsReply>) returns (sent: Option<ReviewRequest>)
      modifies this
      ensures IsBlank(old(newReview)) ==> sent == None && newReview == old(newReview) && alerts == old(alerts)
      ensures !IsBlank(old(newReview)) && !LoggedIn(store.items) ==>
                sent == None && newReview == old(newReview)
                && alerts == old(alerts) + ["Please log in or sign up to submit a review."]
      ensures !IsBlank(old(newReview)) && LoggedIn(store.items) && selectedCar.None? ==>
                sent == None && newReview == old(newReview)
                && alerts == old(alerts) + ["Failed to submit review. Please try again."]
      ensures !IsBlank(old(newReview)) && LoggedIn(store.items) && selectedCar.Some? ==>
                && sent == Some(ReviewRequest(store.items[UserIdKey], selectedCar.value.id, old(newReview)))
                && (response.Ok? ==> newReview == "" && alerts == old(alerts) && reviews == ReviewsFrom(refetch))
                && (response.Failed? ==> newReview == old(newReview) && reviews == old(reviews)
                                         && alerts == old(alerts) + ["Failed to submit review. Please try again."])
      ensures sent.None? ==> reviews == old(reviews)
      ensures cars == old(cars) && searchTerm == old(searchTerm) && selectedCar == old(selectedCar)
      ensures showBookingForm == old(showBookingForm) && formData == old(formData)
      ensures navigation == old(navigation)
    {
      if IsBlank(newReview) {
        return None;
      }
      var userId := store.GetItem(UserIdKey);
      if !Truthy(userId) {
        alerts := alerts + ["Please log in or sign up to submit a review."];
        return None;
      }
      if selectedCar.None? {
        // `selectedCar._id` throws inside the try block.
        alerts := alerts + ["Failed to submit review. Please try again."];
        return None;
      }
      sent := Some(ReviewRequest(userId.value, selectedCar.value.id, newReview));
      if response.Ok? {
        newReview := "";
        FetchReviews(refetch);
      } else {
        alerts := alerts + ["Failed to submit review. Please try again."];
      }
    }
  }

  const Tesla := Vehicle(Some("1"), Some("Tesla Model 3"), Some("Electric"), 500, "", None, ImagePath("/path/to/image.jpg"))
  const Bmw := Vehicle(Some("2"), Some("BMW X5"), Some("SUV"), 700, "", None, ImagePath("/path/to/image2.jpg"))

  lemma TeslaNameLower()
    ensures Lower("Tesla Model 3") == "tesla model 3"
  {
    LowerIs("Tesla Model 3", "tesla model 3");
  }

  lemma TeslaNameMatches()
    ensures FieldMatches(Some("Tesla Model 3"), "Tesla")
  {
    LowerIs("Tesla", "tesla");
    TeslaNameLower();
    assert "tesla" <= "tesla model 3";
  }

  lemma BmwMissesTesla()
    ensures !FieldMatches(Some("BMW X5"), "Tesla") && !FieldMatches(Some("SUV"), "Tesla")
  {
    LowerIs("Tesla", "tesla");
    LowerIs("BMW X5", "bmw x5");
    LowerIs("SUV", "suv");
    MissingCharExcludes("bmw x5", "tesla", 't');
    MissingCharExcludes("suv", "tesla", 't');
  }

  lemma LoweredTeslaLacksSuv()
    ensures !Includes("tesla model 3", "suv")
  {
    MissingCharExcludes("tesla model 3", "suv", 'u');
  }

  lemma TeslaNameMissesSuv()
    ensures !FieldMatches(Some("Tesla Model 3"), "suv")
  {
    LowerIs("suv", "suv");
    TeslaNameLower();
    LoweredTeslaLacksSuv();
  }

  lemma TeslaTypeMissesSuv()
    ensures !FieldMatches(Some("Electric"), "suv")
  {
    LowerIs("suv", "suv");
    LowerIs("Electric", "electric");
    MissingCharExcludes("electric", "suv", 's');
  }

  lemma BmwTypeMatchesSuv()
    ensures FieldMatches(Some("SUV"), "suv")
  {
    LowerIs("suv", "suv");
    LowerIs("SUV", "suv");
  }

  /** The catalog search example: "Tesla" finds only the Tesla, "suv" only the BMW. */
  lemma SearchExample()
    ensures FilteredCars([Tesla, Bmw], "Tesla") == [Tesla]
    ensures FilteredCars([Tesla, Bmw], "suv") == [Bmw]
  {
    TeslaNameMatches();
    BmwMissesTesla();
    TeslaNameMissesSuv();
    TeslaTypeMissesSuv();
    BmwTypeMatchesSuv();
    FilterPair(Tesla, Bmw, c => CarMatches(c, "Tesla"));
    FilterPair(Tesla, Bmw, c => CarMatches(c, "suv"));
  }
}
