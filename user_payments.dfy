/** The customer's "Your Payment Details" page: it loads the logged-in user's
    payments and renders each with "N/A" for missing references and a
    coloured status pill. */
module UserPayments {
  import opened Optional
  import opened Http
  import opened Session
  import opened Entities

  /** A payments response body: `response.data.payments`, possibly absent. */
  datatype PaymentsReply = PaymentsReply(payments: Option<seq<Payment>>)

  /** `fetchPayments`: the `payments` array, `[]` when it is absent or the request fails. */
  function FetchPayments(response: Outcome<PaymentsReply>): (r: seq<Payment>)
    ensures response.Failed? ==> r == []
    ensures response.Ok? && response.data.payments.None? ==> r == []
    ensures response.Ok? && response.data.payments.Some? ==> r == response.data.payments.value
  {
    match response
    case Ok(reply) => if reply.payments.Some? then reply.payments.value else []
    case Failed => []
  }

  /** The status pill: "pending" yellow, "completed" green, anything else red. */
  function PaymentBadge(status: string): (b: Badge)
    ensures b == Yellow <==> status == "pending"
    ensures b == Green <==> status == "completed"
    ensures b == Red <==> status != "pending" && status != "completed"
  {
    if status == "pending" then Yellow
    else if status == "completed" then Green
    else Red
  }

  /** What one table row displays. */
  datatype PaymentRow = PaymentRow(number: int, bookingId: string, transactionId: string, badge: Badge)

  function Rows(payments: seq<Payment>): (rows: seq<PaymentRow>)
    ensures |rows| == |payments|
    ensures forall i :: 0 <= i < |payments| ==>
              rows[i] == PaymentRow(i + 1, OrNA(payments[i].bookingRef), OrNA(payments[i].transactionId),
                                    PaymentBadge(payments[i].paymentStatus))
  {
    seq(|payments|, i requires 0 <= i < |payments| =>
      PaymentRow(i + 1, OrNA(payments[i].bookingRef), OrNA(payments[i].transactionId),
                 PaymentBadge(payments[i].paymentStatus)))
  }

  /** A cash or card payment, which carries no transaction id, shows "N/A" in that column. */
  lemma MissingTransactionShowsNA(payments: seq<Payment>, i: nat)
    requires i < |payments| && payments[i].transactionId.None?
    ensures Rows(payments)[i].transactionId == "N/A"
  {
  }

  class UserPaymentsView {
    const store: SessionStore
    var payments: seq<Payment>
    var loading: bool
    var error: Option<string>

    constructor (store: SessionStore)
      ensures this.store == store && payments == [] && loading && error == None
    {
      this.store := store;
      payments := [];
      loading := true;
      error := None;
    }

    /** The mount effect: without a session user no request is made and the
        error is set; otherwise the list becomes the fetched one. */
    method Load(response: Outcome<PaymentsReply>) returns (requested: bool)
      modifies this
      ensures requested == LoggedIn(store.items)
      ensures !loading
      ensures !requested ==> error == Some("User is not logged in.") && payments == old(payments)
      ensures requested ==> error == old(error) && payments == FetchPayments(response)
    {
      var userId := store.GetItem(UserIdKey);
      if !Truthy(userId) {
        error := Some("User is not logged in.");
        loading := false;
        return false;
      }
      requested := true;
      loading := true;
      payments := FetchPayments(response);
      loading := false;
    }
  }
}
