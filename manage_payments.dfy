/** The admin payment list: search, inline status change, confirm-guarded delete
    and an edit modal whose only editable field is the status. */
module ManagePayments {
  import opened Optional
  import opened Http
  import opened Lists
  import opened Entities
  import opened Search
  import UserPayments

  function UserEmail(p: Payment): Option<string> {
    if p.user.Some? then Some(p.user.value.email) else None
  }

  function UserId(p: Payment): Option<string> {
    if p.user.Some? then Some(p.user.value.id) else None
  }

  predicate PaymentMatches(p: Payment, term: string) {
    FieldMatches(UserEmail(p), term) || FieldMatches(UserId(p), term) || FieldMatches(p.bookingRef, term)
  }

  /** `filteredPayments`: the user's email, the user's id or the booking id contains the term. */
  function FilteredPayments(payments: seq<Payment>, term: string): (r: seq<Payment>)
    ensures forall p :: p in r <==> p in payments && PaymentMatches(p, term)
    ensures forall p :: multiset(r)[p] == if PaymentMatches(p, term) then multiset(payments)[p] else 0
    ensures IsSubsequence(r, payments)
  {
    Filter(payments, (p: Payment) => PaymentMatches(p, term))
  }

  /** A payment without a user or a booking reference is never found by any search... */
  lemma UnlinkedPaymentHidden(p: Payment, term: string)
    requires p.user.None? && p.bookingRef.None?
    ensures !PaymentMatches(p, term)
  {
  }

  /** ...while the empty search lists every payment that has a user or a booking. */
  lemma EmptySearchListsLinked(p: Payment)
    ensures PaymentMatches(p, "") <==> p.user.Some? || p.bookingRef.Some?
  {
    EmptyTermMatches(UserEmail(p));
    EmptyTermMatches(p.bookingRef);
  }

  /** `prev.map(p => p._id === id ? { ...p, paymentStatus: status } : p)`. */
  function SetPaymentStatus(payments: seq<Payment>, id: string, status: string): (r: seq<Payment>)
    ensures |r| == |payments|
    ensures forall i :: 0 <= i < |payments| ==>
              r[i] == payments[i].(paymentStatus := if payments[i].id == id then status else payments[i].paymentStatus)
  {
    UpdateWhere(payments, (p: Payment) => p.id == id, (p: Payment) => p.(paymentStatus := status))
  }

  /** A later status change of the same payment overrides an earlier one. */
  lemma SetPaymentStatusLastWins(payments: seq<Payment>, id: string, first: string, second: string)
    ensures SetPaymentStatus(SetPaymentStatus(payments, id, first), id, second) == SetPaymentStatus(payments, id, second)
  {
    var a := SetPaymentStatus(SetPaymentStatus(payments, id, first), id, second);
    var b := SetPaymentStatus(payments, id, second);
    assert |a| == |b|;
    assert forall i :: 0 <= i < |a| ==> a[i] == b[i];
  }

  /** `prev.map(p => p._id === edited._id ? edited : p)`. */
  function ReplacePayment(payments: seq<Payment>, edited: Payment): (r: seq<Payment>)
    ensures |r| == |payments|
    ensures forall i :: 0 <= i < |payments| ==> r[i] == if payments[i].id == edited.id then edited else payments[i]
  {
    UpdateWhere(payments, (p: Payment) => p.id == edited.id, (_: Payment) => edited)
  }

  /** Saving from the modal, which only edits the status of a copy of a listed
      row, has the same effect on the list as the inline status change. */
  lemma SaveIsStatusChange(payments: seq<Payment>, original: Payment, status: string)
    requires forall i :: 0 <= i < |payments| && payments[i].id == original.id ==> payments[i] == original
    ensures ReplacePayment(payments, original.(paymentStatus := status)) == SetPaymentStatus(payments, original.id, status)
  {
    var a := ReplacePayment(payments, original.(paymentStatus := status));
    var b := SetPaymentStatus(payments, original.id, status);
    assert |a| == |b|;
    assert forall i :: 0 <= i < |a| ==> a[i] == b[i];
  }

  /** `prev.filter(p => p._id !== id)`. */
  function WithoutPayment(payments: seq<Payment>, id: string): (r: seq<Payment>)
    ensures forall p :: p in r <==> p in payments && p.id != id
    ensures forall p :: multiset(r)[p] == if p.id == id then 0 else multiset(payments)[p]
    ensures IsSubsequence(r, payments)
  {
    Filter(payments, (p: Payment) => p.id != id)
  }

  /** The status PUT sends only the new status. */
  datatype StatusUpdate = StatusUpdate(id: string, paymentStatus: string)

  /** The statuses both selects offer. */
  const PaymentStatuses := ["pending", "completed", "failed"]

  /** Unlike the booking screens, the admin's payment statuses are the ones the
      customer's page colours: pending yellow, completed green, failed red. */
  lemma PaymentStatusesColoured()
    ensures |PaymentStatuses| == 3
    ensures UserPayments.PaymentBadge(PaymentStatuses[0]) == Yellow
    ensures UserPayments.PaymentBadge(PaymentStatuses[1]) == Green
    ensures UserPayments.PaymentBadge(PaymentStatuses[2]) == Red
  {
  }

  class ManagePaymentsView {
    var payments: seq<Payment>
    var loading: bool
    var error: Option<string>
    var searchTerm: string
    var isEditing: bool
    var currentPayment: Option<Payment>

    /** The modal is only open over a copied payment. */
    ghost predicate Valid()
      reads this
    {
      isEditing ==> currentPayment.Some?
    }

    constructor ()
      ensures payments == [] && loading && error == None && searchTerm == ""
      ensures !isEditing && currentPayment == None
      ensures Valid()
    {
      payments := [];
      loading := true;
      error := None;
      searchTerm := "";
      isEditing := false;
      currentPayment := None;
    }

    /** The mount fetch: the list on success, an error otherwise; loading ends either way. */
    method FetchPayments(response: Outcome<seq<Payment>>)
      modifies this
      ensures payments == if response.Ok? then response.data else old(payments)
      ensures error == if response.Ok? then old(error) else Some("Failed to load payments.")
      ensures !loading
      ensures searchTerm == old(searchTerm) && isEditing == old(isEditing) && currentPayment == old(currentPayment)
    {
      if response.Ok? {
        payments := response.data;
      } else {
        error := Some("Failed to load payments.");
      }
      loading := false;
    }

    method HandleSearchChange(value: string)
      modifies this
      ensures searchTerm == value
      ensures payments == old(payments) && loading == old(loading) && error == old(error)
      ensures isEditing == old(isEditing) && currentPayment == old(currentPayment)
    {
      searchTerm := value;
    }

    /** `handleStatusChange`: the one row's status is patched after the PUT succeeds. */
    method HandleStatusChange(id: string, newStatus: string, response: Outcome<()>) returns (sent: StatusUpdate)
      modifies this
      ensures sent == StatusUpdate(id, newStatus)
      ensures payments == if response.Ok? then SetPaymentStatus(old(payments), id, newStatus) else old(payments)
      ensures loading == old(loading) && error == old(error) && searchTerm == old(searchTerm)
      ensures isEditing == old(isEditing) && currentPayment == old(currentPayment)
    {
      sent := StatusUpdate(id, newStatus);
      if response.Ok? {
        payments := SetPaymentStatus(payments, id, newStatus);
      }
    }

    /** `handleDelete`: declining the confirmation issues no request. */
    method HandleDelete(id: string, confirmed: bool, response: Outcome<()>) returns (requested: bool)
      modifies this
      ensures requested == confirmed
      ensures payments == if confirmed && response.Ok? then WithoutPayment(old(payments), id) else old(payments)
      ensures loading == old(loading) && error == old(error) && searchTerm == old(searchTerm)
      ensures isEditing == old(isEditing) && currentPayment == old(currentPayment)
    {
      requested := confirmed;
      if confirmed && response.Ok? {
        payments := WithoutPayment(payments, id);
      }
    }

    method HandleEdit(payment: Payment)
      modifies this
      ensures currentPayment == Some(payment) && isEditing && Valid()
      ensures payments == old(payments) && loading == old(loading) && error == old(error) && searchTerm == old(searchTerm)
    {
      currentPayment := Some(payment);
      isEditing := true;
    }

    /** The modal's status select. */
    method SetEditedStatus(status: string)
      requires isEditing && Valid()
      modifies this
      ensures currentPayment == Some(old(currentPayment).value.(paymentStatus := status))
      ensures isEditing && Valid()
      ensures payments == old(payments) && loading == old(loading) && error == old(error) && searchTerm == old(searchTerm)
    {
      currentPayment := Some(currentPayment.value.(paymentStatus := status));
    }

    /** `handleSave`: nothing without a current payment. The PUT carries only the
        status, but the list takes the whole edited copy; the copy itself is kept. */
    method HandleSave(response: Outcome<()>) returns (sent: Option<StatusUpdate>)
      modifies this
      ensures old(currentPayment).None? ==> sent == None && payments == old(payments) && isEditing == old(isEditing)
      ensures old(currentPayment).Some? ==>
                var edited := old(currentPayment).value;
                && sent == Some(StatusUpdate(edited.id, edited.paymentStatus))
                && payments == (if response.Ok? then ReplacePayment(old(payments), edited) else old(payments))
                && isEditing == (old(isEditing) && response.Failed?)
      ensures currentPayment == old(currentPayment)
      ensures loading == old(loading) && error == old(error) && searchTerm == old(searchTerm)
      ensures old(Valid()) ==> Valid()
    {
      if currentPayment.None? {
        return None;
      }
      var edited := currentPayment.value;
      sent := Some(StatusUpdate(edited.id, edited.paymentStatus));
      if response.Ok? {
        payments := ReplacePayment(payments, edited);
        isEditing := false;
      }
    }

    /** The modal's Cancel button closes it but keeps the copy. */
    method CancelEdit()
      modifies this
      ensures !isEditing && Valid()
      ensures payments == old(payments) && loading == old(loading) && error == old(error)
      ensures searchTerm == old(searchTerm) && currentPayment == old(currentPayment)
    {
      isEditing := false;
    }
  }
}
