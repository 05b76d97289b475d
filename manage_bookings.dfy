/** The admin booking list: search, status change, confirm-guarded delete and an
    edit modal for the pick-up location and the status. */
module ManageBookings {
  import opened Optional
  import opened Http
  import opened Lists
  import opened Entities
  import opened Search
  import UserBookings

  function UserEmail(b: Booking): Option<string> {
    if b.user.Some? then Some(b.user.value.email) else None
  }

  function CarName(b: Booking): Option<string> {
    if b.car.Some? then Some(b.car.value.name) else None
  }

  predicate BookingMatches(b: Booking, term: string) {
    FieldMatches(UserEmail(b), term) || FieldMatches(CarName(b), term)
  }

  /** `filteredBookings`: the user's email or the car's name contains the term. */
  function FilteredBookings(bookings: seq<Booking>, term: string): (r: seq<Booking>)
    ensures forall b :: b in r <==> b in bookings && BookingMatches(b, term)
    ensures forall b :: multiset(r)[b] == if BookingMatches(b, term) then multiset(bookings)[b] else 0
    ensures IsSubsequence(r, bookings)
  {
    Filter(bookings, (b: Booking) => BookingMatches(b, term))
  }

  /** `prev.map(b => b._id === id ? { ...b, status } : b)`. */
  function SetBookingStatus(bookings: seq<Booking>, id: string, status: string): (r: seq<Booking>)
    ensures |r| == |bookings|
    ensures forall i :: 0 <= i < |bookings| ==>
              r[i] == bookings[i].(status := if bookings[i].id == id then status else bookings[i].status)
  {
    UpdateWhere(bookings, (b: Booking) => b.id == id, (b: Booking) => b.(status := status))
  }

  /** A status change of one booking leaves every other booking's status as it was. */
  lemma SetBookingStatusElsewhere(bookings: seq<Booking>, id: string, status: string, i: nat)
    requires i < |bookings| && bookings[i].id != id
    ensures SetBookingStatus(bookings, id, status)[i] == bookings[i]
  {
  }

  /** `prev.map(b => b._id === edited._id ? edited : b)`. */
  function ReplaceBooking(bookings: seq<Booking>, edited: Booking): (r: seq<Booking>)
    ensures |r| == |bookings|
    ensures forall i :: 0 <= i < |bookings| ==> r[i] == if bookings[i].id == edited.id then edited else bookings[i]
  {
    UpdateWhere(bookings, (b: Booking) => b.id == edited.id, (_: Booking) => edited)
  }

  /** `prev.filter(b => b._id !== id)`. */
  function WithoutBooking(bookings: seq<Booking>, id: string): (r: seq<Booking>)
    ensures forall b :: b in r <==> b in bookings && b.id != id
    ensures forall b :: multiset(r)[b] == if b.id == id then 0 else multiset(bookings)[b]
    ensures IsSubsequence(r, bookings)
  {
    Filter(bookings, (b: Booking) => b.id != id)
  }

  /** The statuses the edit modal's select offers. */
  const EditStatuses := ["Pending", "Confirmed", "Rejected"]

  /** Every status an admin can pick is capitalised, so the customer's page,
      which compares with lowercase "pending" and "confirmed", shows it red. */
  lemma AdminStatusesShowRed(status: string)
    requires status in EditStatuses
    ensures UserBookings.StatusBadge(status) == Red
  {
  }

  /** In particular, a booking an admin confirms through the edit modal (a copy
      with status "Confirmed", saved over its row) appears red to its customer. */
  lemma AdminConfirmedShowsRed(bookings: seq<Booking>, i: nat)
    requires i < |bookings|
    ensures UserBookings.Rows(ReplaceBooking(bookings, bookings[i].(status := "Confirmed")))[i].badge == Red
  {
    AdminStatusesShowRed("Confirmed");
  }

  class ManageBookingsView {
    var bookings: seq<Booking>
    var loading: bool
    var error: Option<string>
    var searchTerm: string
    var isEditing: bool
    var currentBooking: Option<Booking>

    /** The modal is only open over a copied booking. */
    ghost predicate Valid()
      reads this
    {
      isEditing ==> currentBooking.Some?
    }

    constructor ()
      ensures bookings == [] && loading && error == None && searchTerm == ""
      ensures !isEditing && currentBooking == None
      ensures Valid()
    {
      bookings := [];
      loading := true;
      error := None;
      searchTerm := "";
      isEditing := false;
      currentBooking := None;
    }

    /** The mount fetch: the list on success, an error otherwise; loading ends either way. */
    method FetchBookings(response: Outcome<seq<Booking>>)
      modifies this
      ensures bookings == if response.Ok? then response.data else old(bookings)
      ensures error == if response.Ok? then old(error) else Some("Failed to load bookings.")
      ensures !loading
      ensures searchTerm == old(searchTerm) && isEditing == old(isEditing) && currentBooking == old(currentBooking)
    {
      if response.Ok? {
        bookings := response.data;
      } else {
        error := Some("Failed to load bookings.");
      }
      loading := false;
    }

    method HandleSearchChange(value: string)
      modifies this
      ensures searchTerm == value
      ensures bookings == old(bookings) && loading == old(loading) && error == old(error)
      ensures isEditing == old(isEditing) && currentBooking == old(currentBooking)
    {
      searchTerm := value;
    }

    /** `handleStatusChange`: the one booking's status is patched after the PUT succeeds. */
    method HandleStatusChange(id: string, newStatus: string, response: Outcome<()>)
      modifies this
      ensures bookings == if response.Ok? then SetBookingStatus(old(bookings), id, newStatus) else old(bookings)
      ensures loading == old(loading) && error == old(error) && searchTerm == old(searchTerm)
      ensures isEditing == old(isEditing) && currentBooking == old(currentBooking)
    {
      if response.Ok? {
        bookings := SetBookingStatus(bookings, id, newStatus);
      }
    }

    /** `handleDelete`: declining the confirmation issues no request. */
    method HandleDelete(id: string, confirmed: bool, response: Outcome<()>) returns (requested: bool)
      modifies this
      ensures requested == confirmed
      ensures bookings == if confirmed && response.Ok? then WithoutBooking(old(bookings), id) else old(bookings)
      ensures loading == old(loading) && error == old(error) && searchTerm == old(searchTerm)
      ensures isEditing == old(isEditing) && currentBooking == old(currentBooking)
    {
      requested := confirmed;
      if confirmed && response.Ok? {
        bookings := WithoutBooking(bookings, id);
      }
    }

    method HandleEdit(booking: Booking)
      modifies this
      ensures currentBooking == Some(booking) && isEditing && Valid()
      ensures bookings == old(bookings) && loading == old(loading) && error == old(error) && searchTerm == old(searchTerm)
    {
      currentBooking := Some(booking);
      isEditing := true;
    }

    /** The modal's pick-up location input. */
    method SetEditedPickUp(value: string)
      requires isEditing && Valid()
      modifies this
      ensures currentBooking == Some(old(currentBooking).value.(pickUpLocation := value))
      ensures isEditing && Valid()
      ensures bookings == old(bookings) && loading == old(loading) && error == old(error) && searchTerm == old(searchTerm)
    {
      currentBooking := Some(currentBooking.value.(pickUpLocation := value));
    }

    /** The modal's status select, offering only `EditStatuses`. */
    method SetEditedStatus(status: string)
      requires isEditing && Valid() && status in EditStatuses
      modifies this
      ensures currentBooking == Some(old(currentBooking).value.(status := status))
      ensures isEditing && Valid()
      ensures bookings == old(bookings) && loading == old(loading) && error == old(error) && searchTerm == old(searchTerm)
    {
      currentBooking := Some(currentBooking.value.(status := status));
    }

    /** `handleSave`: nothing without a current booking; otherwise the whole copy
        is PUT and, on success, replaces its row and the modal closes. */
    method HandleSave(response: Outcome<()>) returns (sent: Option<Booking>)
      modifies this
      ensures sent == old(currentBooking)
      ensures bookings == if sent.Some? && response.Ok? then ReplaceBooking(old(bookings), sent.value) else old(bookings)
      ensures isEditing == (old(isEditing) && !(sent.Some? && response.Ok?))
      ensures currentBooking == old(currentBooking)
      ensures loading == old(loading) && error == old(error) && searchTerm == old(searchTerm)
      ensures old(Valid()) ==> Valid()
    {
      sent := currentBooking;
      if currentBooking.None? {
        return;
      }
      if response.Ok? {
        bookings := ReplaceBooking(bookings, currentBooking.value);
        isEditing := false;
      }
    }

    method CancelEdit()
      modifies this
      ensures !isEditing && Valid()
      ensures bookings == old(bookings) && loading == old(loading) && error == old(error)
      ensures searchTerm == old(searchTerm) && currentBooking == old(currentBooking)
    {
      isEditing := false;
    }
  }
}
