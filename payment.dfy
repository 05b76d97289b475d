/** The payment page: it shows the booking summary carried over from the
    catalog, collects the details the chosen payment method needs, validates
    them, sends the payment and, on HTTP 201, forgets the pending booking id. */
module PaymentPage {
  import opened Optional
  import opened Http
  import opened Session
  import opened Pricing

  datatype Method = Card | PayPal | Cash

  datatype CardDetails = CardDetails(cardHolder: string, cardNumber: string, expiryDate: string, cvv: string)

  /** The card fields as the page's state starts them: all empty. */
  const InitialCard := CardDetails("", "", "", "")

  /** The card inputs the form renders. There is no input named "cvv". */
  datatype CardInput = CardHolderInput | CardNumberInput | ExpiryDateInput

  /** `{ ...cardDetails, [e.target.name]: e.target.value }` for one rendered input. */
  function SetCardField(card: CardDetails, input: CardInput, value: string): (r: CardDetails)
    ensures r.cardHolder == if input == CardHolderInput then value else card.cardHolder
    ensures r.cardNumber == if input == CardNumberInput then value else card.cardNumber
    ensures r.expiryDate == if input == ExpiryDateInput then value else card.expiryDate
    ensures r.cvv == card.cvv
  {
    match input
    case CardHolderInput => card.(cardHolder := value)
    case CardNumberInput => card.(cardNumber := value)
    case ExpiryDateInput => card.(expiryDate := value)
  }

  /** The card state after the user types into the rendered inputs in order. */
  function ApplyCardInputs(card: CardDetails, inputs: seq<(CardInput, string)>): CardDetails
    decreases |inputs|
  {
    if inputs == [] then card
    else ApplyCardInputs(SetCardField(card, inputs[0].0, inputs[0].1), inputs[1..])
  }

  predicate CardComplete(card: CardDetails) {
    card.cardHolder != "" && card.cardNumber != "" && card.expiryDate != "" && card.cvv != ""
  }

  /** The alert `handlePayment` raises before sending anything, if any. */
  function ValidationError(pay: Method, card: CardDetails, transactionId: string): (err: Option<string>)
    ensures pay == Card ==> (err.None? <==> CardComplete(card))
    ensures pay == PayPal ==> (err.None? <==> transactionId != "")
    ensures pay == Cash ==> err.None?
  {
    if pay == Card && (card.cardHolder == "" || card.cardNumber == "" || card.expiryDate == "" || card.cvv == "") then
      Some("Please fill in all card details.")
    else if pay == PayPal && transactionId == "" then
      Some("Please enter a valid PayPal transaction ID.")
    else None
  }

  datatype PaymentPayload = PaymentPayload(
    userId: Option<string>,
    bookingId: Option<string>,
    totalAmount: int,
    paymentMethod: Method,
    transactionId: Option<string>,
    cardDetails: Option<CardDetails>)

  /** The request body: only the chosen method's details are sent, the other is `null`. */
  function BuildPayload(userId: Option<string>, bookingId: Option<string>, totalAmount: int,
                        pay: Method, transactionId: string, card: CardDetails): (p: PaymentPayload)
    ensures p.userId == userId && p.bookingId == bookingId && p.totalAmount == totalAmount && p.paymentMethod == pay
    ensures p.transactionId.Some? <==> pay == PayPal
    ensures p.cardDetails.Some? <==> pay == Card
    ensures p.transactionId.Some? ==> p.transactionId.value == transactionId
    ensures p.cardDetails.Some? ==> p.cardDetails.value == card
  {
    PaymentPayload(userId, bookingId, totalAmount, pay,
                   if pay == PayPal then Some(transactionId) else None,
                   if pay == Card then Some(card) else None)
  }

  /** The session after the payment response: only HTTP 201 removes "bookingId". */
  function SessionAfterPayment(items: map<string, string>, response: Outcome<int>): (r: map<string, string>)
    ensures response == Ok(201) ==> BookingIdKey !in r && forall k :: k != BookingIdKey ==> Get(r, k) == Get(items, k)
    ensures response != Ok(201) ==> r == items
  {
    if response == Ok(201) then items - {BookingIdKey} else items
  }

  /** The alert shown once the request has been answered. */
  function ResponseAlert(response: Outcome<int>): (alert: string)
    ensures alert == "Payment successful! Booking confirmed." <==> response == Ok(201)
    ensures alert == "Payment failed! Please try again." <==> response.Ok? && response.data != 201
    ensures alert == "Error: Unable to process payment." <==> response.Failed?
  {
    match response
    case Ok(status) => if status == 201 then "Payment successful! Booking confirmed." else "Payment failed! Please try again."
    case Failed => "Error: Unable to process payment."
  }

  /** Typing into the rendered inputs never sets the cvv. */
  lemma {:induction false} InputsKeepCvv(card: CardDetails, inputs: seq<(CardInput, string)>)
    ensures ApplyCardInputs(card, inputs).cvv == card.cvv
    decreases |inputs|
  {
    if inputs != [] {
      InputsKeepCvv(SetCardField(card, inputs[0].0, inputs[0].1), inputs[1..]);
    }
  }

  /** A card payment can never pass validation from the rendered form: the cvv
      starts empty, no input sets it, and the card check requires it. */
  lemma CardPaymentNeverValid(inputs: seq<(CardInput, string)>, transactionId: string)
    ensures ValidationError(Card, ApplyCardInputs(InitialCard, inputs), transactionId).Some?
  {
    InputsKeepCvv(InitialCard, inputs);
  }

  class PaymentView {
    const store: SessionStore
    /** The navigation state from the catalog. */
    const rentalDays: int
    const pricePerDay: int
    const driverDays: int

    var paymentMethod: Method
    var cardDetails: CardDetails
    var transactionId: string
    var loading: bool
    var alerts: seq<string>
    /** The last `navigate` target, if any. */
    var route: Option<string>

    /** The cvv can never be filled in on this page. */
    ghost predicate CvvEmpty()
      reads this
    {
      cardDetails.cvv == ""
    }

    constructor (store: SessionStore, rentalDays: int, pricePerDay: int, driverDays: int)
      ensures this.store == store && this.rentalDays == rentalDays
      ensures this.pricePerDay == pricePerDay && this.driverDays == driverDays
      ensures paymentMethod == Card && cardDetails == InitialCard && transactionId == ""
      ensures !loading && alerts == [] && route == None
      ensures CvvEmpty()
    {
      this.store := store;
      this.rentalDays := rentalDays;
      this.pricePerDay := pricePerDay;
      this.driverDays := driverDays;
      paymentMethod := Card;
      cardDetails := InitialCard;
      transactionId := "";
      loading := false;
      alerts := [];
      route := None;
    }

    /** The amount shown on the summary and sent in the payload. */
    function Total(): (total: int)
      reads this
      ensures driverDays == 0 ==> total == rentalDays * pricePerDay
    {
      TotalAmount(rentalDays, pricePerDay, driverDays)
    }

    method HandleInputChange(input: CardInput, value: string)
      modifies this
      ensures cardDetails == SetCardField(old(cardDetails), input, value)
      ensures paymentMethod == old(paymentMethod) && transactionId == old(transactionId)
      ensures loading == old(loading) && alerts == old(alerts) && route == old(route)
      ensures old(CvvEmpty()) ==> CvvEmpty()
    {
      cardDetails := SetCardField(cardDetails, input, value);
    }

    method HandlePaymentMethodChange(pay: Method)
      modifies this
      ensures paymentMethod == pay
      ensures cardDetails == old(cardDetails) && transactionId == old(transactionId)
      ensures loading == old(loading) && alerts == old(alerts) && route == old(route)
    {
      paymentMethod := pay;
    }

    method HandleTransactionIdChange(value: string)
      modifies this
      ensures transactionId == value
      ensures cardDetails == old(cardDetails) && paymentMethod == old(paymentMethod)
      ensures loading == old(loading) && alerts == old(alerts) && route == old(route)
    {
      transactionId := value;
    }

    /** `handlePayment`: `sent` is the request body, or `None` when validation
        stopped it; `response` is what the server would answer. */
    method HandlePayment(response: Outcome<int>) returns (sent: Option<PaymentPayload>)
      modifies this, store
      ensures !loading
      ensures paymentMethod == old(paymentMethod) && cardDetails == old(cardDetails) && transactionId == old(transactionId)
      ensures var err := ValidationError(paymentMethod, cardDetails, transactionId);
        if err.Some? then
          sent == None && alerts == old(alerts) + [err.value] && store.items == old(store.items) && route == old(route)
        else
          && sent == Some(BuildPayload(Get(old(store.items), UserIdKey), Get(old(store.items), BookingIdKey),
                                       Total(), paymentMethod, transactionId, cardDetails))
          && store.items == SessionAfterPayment(old(store.items), response)
          && alerts == old(alerts) + [ResponseAlert(response)]
          && route == if response == Ok(201) then Some("/") else old(route)
    {
      var bookingId := store.GetItem(BookingIdKey);
      loading := true;
      var userId := store.GetItem(UserIdKey);
      var err := ValidationError(paymentMethod, cardDetails, transactionId);
      if err.Some? {
        alerts := alerts + [err.value];
        loading := false;
        return None;
      }
      var payload := BuildPayload(userId, bookingId, Total(), paymentMethod, transactionId, cardDetails);
      sent := Some(payload);
      match response {
        case Ok(status) =>
          if status == 201 {
            alerts := alerts + ["Payment successful! Booking confirmed."];
            store.RemoveItem(BookingIdKey);
            route := Some("/");
          } else {
            alerts := alerts + ["Payment failed! Please try again."];
          }
        case Failed =>
          alerts := alerts + ["Error: Unable to process payment."];
      }
      loading := false;
    }
  }
}
