/** The older customer catalog (`Car/carCard.jsx`): the same search, a booking
    form that also sends the customer's name and contact, no login check and
    no payment step; a confirmed booking just resets the form. */
module LegacyCarListing {
  import opened Optional
  import opened Http
  import opened Lists
  import opened Session
  import opened Entities
  import opened Search
  import CarListing

  /** `filteredCars`: the same name-or-type search as the newer catalog. */
  function FilteredCars(cars: seq<Vehicle>, term: string): (r: seq<Vehicle>)
    ensures forall c :: c in r <==> c in cars && (FieldMatches(c.name, term) || FieldMatches(c.carType, term))
    ensures forall c :: multiset(r)[c] ==
              if FieldMatches(c.name, term) || FieldMatches(c.carType, term) then multiset(cars)[c] else 0
    ensures IsSubsequence(r, cars)
  {
    Filter(cars, (c: Vehicle) => FieldMatches(c.name, term) || FieldMatches(c.carType, term))
  }

  /** Both catalogs list exactly the same cars for every search. */
  lemma SameSearchAsNewerCatalog(cars: seq<Vehicle>, term: string)
    ensures FilteredCars(cars, term) == CarListing.FilteredCars(cars, term)
  {
    FilterAgrees(cars, (c: Vehicle) => FieldMatches(c.name, term) || FieldMatches(c.carType, term),
                 (c: Vehicle) => CarListing.CarMatches(c, term));
  }

  datatype LegacyBookingRequest = LegacyBookingRequest(
    userId: Option<string>, carId: Option<string>, name: string, contact: string,
    pickUpLocation: string, startDate: string, endDate: string, status: string, driverDays: int)

  /** The reservation body: "pending", with the customer's name and contact from the form. */
  function LegacyPayload(userId: Option<string>, selected: Option<Vehicle>, form: CarListing.BookingForm): (r: LegacyBookingRequest)
    ensures r.status == "pending" && r.userId == userId
    ensures r.carId == if selected.Some? then selected.value.id else None
    ensures r.name == form.name && r.contact == form.contact
    ensures r.pickUpLocation == form.pickUpLocation && r.startDate == form.startDate
    ensures r.endDate == form.endDate && r.driverDays == form.driverDays
  {
    LegacyBookingRequest(userId, if selected.Some? then selected.value.id else None,
                         form.name, form.contact, form.pickUpLocation, form.startDate, form.endDate,
                         "pending", form.driverDays)
  }

  class LegacyCarListingView {
    const store: SessionStore
    var cars: seq<Vehicle>
    var searchTerm: string
    var selectedCar: Option<Vehicle>
    var showBookingForm: bool
    var formData: CarListing.BookingForm
    var alerts: seq<string>

    constructor (store: SessionStore)
      ensures this.store == store
      ensures cars == [] && searchTerm == "" && selectedCar == None && !showBookingForm
      ensures formData == CarListing.EmptyForm && alerts == []
    {
      this.store := store;
      cars := [];
      searchTerm := "";
      selectedCar := None;
      showBookingForm := false;
      formData := CarListing.EmptyForm;
      alerts := [];
    }

    /** The mount fetch: the list is replaced on success; a failure is only logged. */
    method FetchCars(response: Outcome<seq<Vehicle>>)
      modifies this
      ensures cars == if response.Ok? then response.data else old(cars)
      ensures searchTerm == old(searchTerm) && selectedCar == old(selectedCar) && showBookingForm == old(showBookingForm)
      ensures formData == old(formData) && alerts == old(alerts)
    {
      if response.Ok? {
        cars := response.data;
      }
    }

    method HandleSearchChange(value: string)
      modifies this
      ensures searchTerm == value
      ensures cars == old(cars) && selectedCar == old(selectedCar) && showBookingForm == old(showBookingForm)
      ensures formData == old(formData) && alerts == old(alerts)
    {
      searchTerm := value;
    }

    /** `handleInputChange`: only the field named by the input changes. */
    method HandleInputChange(input: CarListing.FormInput)
      modifies this
      ensures formData == CarListing.ApplyInput(old(formData), input)
      ensures cars == old(cars) && searchTerm == old(searchTerm) && selectedCar == old(selectedCar)
      ensures showBookingForm == old(showBookingForm) && alerts == old(alerts)
    {
      formData := CarListing.ApplyInput(formData, input);
    }

    /** `handleFormSubmit`: on success the form is reset, the modal closed and the
        selection cleared; on failure everything but the alert stays as it was. */
    method HandleFormSubmit(response: Outcome<()>) returns (sent: LegacyBookingRequest)
      modifies this
      ensures sent == LegacyPayload(Get(store.items, UserIdKey), old(selectedCar), old(formData))
      ensures cars == old(cars) && searchTerm == old(searchTerm)
      ensures response.Ok? ==> formData == CarListing.EmptyForm && !showBookingForm && selectedCar == None
                               && alerts == old(alerts) + ["Booking confirmed!"]
      ensures response.Failed? ==> formData == old(formData) && showBookingForm == old(showBookingForm)
                                   && selectedCar == old(selectedCar)
                                   && alerts == old(alerts) + ["Failed to book the car. Please try again."]
    {
      var userId := store.GetItem(UserIdKey);
      sent := LegacyPayload(userId, selectedCar, formData);
      if response.Ok? {
        formData := CarListing.EmptyForm;
        showBookingForm := false;
        selectedCar := None;
        alerts := alerts + ["Booking confirmed!"];
      } else {
        alerts := alerts + ["Failed to book the car. Please try again."];
      }
    }

    /** "Book Now" opens the form whether or not anyone is logged in. */
    method HandleBookClick()
      modifies this
      ensures showBookingForm
      ensures cars == old(cars) && searchTerm == old(searchTerm) && selectedCar == old(selectedCar)
      ensures formData == old(formData) && alerts == old(alerts)
    {
      showBookingForm := true;
    }
  }
}
