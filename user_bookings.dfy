/** The customer's "Your Bookings" page: it loads the logged-in user's bookings
    and renders each as a numbered row with a resolved car image and a
    coloured status pill. */
module UserBookings {
  import opened Optional
  import opened Http
  import opened Session
  import opened Entities

  /** `fetchBookings`: the response body, `[]` when it is absent, and `[]` when
      the request fails: the helper never throws. */
  function FetchBookings(response: Outcome<Option<seq<Booking>>>): (r: seq<Booking>)
    ensures response.Failed? ==> r == []
    ensures response.Ok? && response.data.None? ==> r == []
    ensures response.Ok? && response.data.Some? ==> r == response.data.value
  {
    match response
    case Ok(data) => if data.Some? then data.value else []
    case Failed => []
  }

  /** The state update keeps the previous list when it serialises the same as
      the fetched one. Comparing before replacing never changes the outcome:
      the page always ends up showing exactly the fetched list. */
  function KeepIfSame(previous: seq<Booking>, fetched: seq<Booking>): (r: seq<Booking>)
    ensures r == fetched
  {
    if previous != fetched then fetched else previous
  }

  const DefaultCarImage := "/default-car.jpg"
  const CarImagesBase := "http://localhost:3001/car_images/"

  /** The image URL a row shows: the default when the car or its image is
      missing or empty, an absolute "http" URL as is, anything else as a file
      under the backend's car image folder. */
  function CarImage(car: Option<CarRef>): (url: string)
    ensures (car.None? || !Truthy(car.value.image)) ==> url == DefaultCarImage
    ensures car.Some? && Truthy(car.value.image) ==>
              url == if "http" <= car.value.image.value then car.value.image.value
                     else CarImagesBase + car.value.image.value
  {
    if car.Some? && Truthy(car.value.image) then
      var image := car.value.image.value;
      if "http" <= image then image else CarImagesBase + image
    else DefaultCarImage
  }

  /** Every image URL is the default or an absolute "http" URL. */
  lemma CarImageResolves(car: Option<CarRef>)
    ensures CarImage(car) == DefaultCarImage || "http" <= CarImage(car)
  {
    if car.Some? && Truthy(car.value.image) && !("http" <= car.value.image.value) {
      assert CarImage(car)[..4] == CarImagesBase[..4] == "http";
    }
  }

  /** Resolving an already resolved image name changes nothing: an absolute URL is
      never prefixed twice. */
  lemma CarImageStable(car: CarRef)
    requires Truthy(car.image)
    ensures CarImage(Some(car.(image := Some(CarImage(Some(car)))))) == CarImage(Some(car))
  {
    CarImageResolves(Some(car));
  }

  /** The status pill: only the lowercase "pending" and "confirmed" get their own colours. */
  function StatusBadge(status: string): (b: Badge)
    ensures b == Yellow <==> status == "pending"
    ensures b == Green <==> status == "confirmed"
    ensures b == Red <==> status != "pending" && status != "confirmed"
  {
    if status == "pending" then Yellow
    else if status == "confirmed" then Green
    else Red
  }

  /** What one table row displays. */
  datatype BookingRow = BookingRow(number: int, image: string, carName: string, badge: Badge)

  /** `booking.carId?.name || "N/A"`. */
  function CarName(car: Option<CarRef>): string {
    OrNA(if car.Some? then Some(car.value.name) else None)
  }

  /** The car column is never blank: a named car shows its name, and a missing
      car or an empty name shows "N/A". */
  lemma CarNameShown(car: Option<CarRef>)
    ensures CarName(car) != ""
    ensures car.Some? && car.value.name != "" ==> CarName(car) == car.value.name
    ensures car.None? || car.value.name == "" ==> CarName(car) == "N/A"
  {
    OrNANonEmpty(if car.Some? then Some(car.value.name) else None);
  }

  /** `bookings.map((booking, index) => ...)`: one row per booking, numbered from 1. */
  function Rows(bookings: seq<Booking>): (rows: seq<BookingRow>)
    ensures |rows| == |bookings|
    ensures forall i :: 0 <= i < |bookings| ==>
              rows[i] == BookingRow(i + 1, CarImage(bookings[i].car), CarName(bookings[i].car), StatusBadge(bookings[i].status))
  {
    seq(|bookings|, i requires 0 <= i < |bookings| =>
      BookingRow(i + 1, CarImage(bookings[i].car), CarName(bookings[i].car), StatusBadge(bookings[i].status)))
  }

  /** Rows are numbered 1, 2, 3, ... without gaps, each one more than the last. */
  lemma RowsNumbered(bookings: seq<Booking>)
    ensures forall i :: 0 <= i < |bookings| ==> Rows(bookings)[i].number == i + 1
    ensures forall i :: 0 < i < |bookings| ==> Rows(bookings)[i].number == Rows(bookings)[i - 1].number + 1
  {
  }

  class UserBookingsView {
    const store: SessionStore
    var bookings: seq<Booking>
    var loading: bool
    var error: Option<string>

    constructor (store: SessionStore)
      ensures this.store == store && bookings == [] && loading && error == None
    {
      this.store := store;
      bookings := [];
      loading := true;
      error := None;
    }

    /** The mount effect. Without a session user no request is made and the
        error is set; otherwise the list becomes the fetched one. Because
        `fetchBookings` swallows failures, the "Failed to load" branch is never
        reached and a logged-in load never sets an error. */
    method Load(response: Outcome<Option<seq<Booking>>>) returns (requested: bool)
      modifies this
      ensures requested == LoggedIn(store.items)
      ensures !loading
      ensures !requested ==> error == Some("User is not logged in") && bookings == old(bookings)
      ensures requested ==> error == old(error) && bookings == FetchBookings(response)
    {
      var userId := store.GetItem(UserIdKey);
      if !Truthy(userId) {
        error := Some("User is not logged in");
        loading := false;
        return false;
      }
      requested := true;
      loading := true;
      var fetched := FetchBookings(response);
      bookings := KeepIfSame(bookings, fetched);
      loading := false;
    }
  }
}
