/** The enumerations of app/domain/enums.py and the guards of app/domain/states.py. */
module Domain {

  datatype Option<+T> = None | Some(value: T)

  datatype SeatStatus = Available | Held | Booked

  datatype BookingState =
    | Pending
    | PaymentAuthorized
    | Ticketed
    | Confirmed
    | PaymentFailed
    | Compensating
    | Voided
    | Cancelled
    | NeedsManualReview

  datatype PaymentState =
    | PayPending
    | PayAuthorized
    | PayCaptured
    | PayDeclined
    | PayVoided
    | PayRefunded
    | PayUnknown

  datatype Event =
    | EvBookingCreated
    | EvSeatsLocked
    | EvPaymentAuthorized
    | EvPaymentDeclined
    | EvPaymentUnknown
    | EvTicketsIssued
    | EvTicketingFailed
    | EvBookingConfirmed
    | EvCompensationStarted
    | EvPaymentVoided
    | EvPaymentRefunded
    | EvCompensationFailed
    | EvSeatsReleased
    | EvHoldLost
    | EvBookingCancelled

  function AllowedFrom(state: BookingState): set<BookingState> {
    match state
    case Pending => {PaymentAuthorized, PaymentFailed, Compensating}
    case PaymentAuthorized => {Ticketed, Compensating}
    case Ticketed => {Confirmed, Compensating}
    case Confirmed => {Cancelled}
    case Compensating => {Voided, NeedsManualReview}
    case PaymentFailed => {}
    case Voided => {}
    case Cancelled => {}
    case NeedsManualReview => {Voided, Cancelled}
  }

  /** assert_can_transition: the target is among the states allowed from the current one. */
  predicate CanTransition(current: BookingState, target: BookingState) {
    target in AllowedFrom(current)
  }

  predicate NoDuplicates<T(==)>(s: seq<T>) {
    forall i, j :: 0 <= i < j < |s| ==> s[i] != s[j]
  }

  lemma {:induction false} SubsetIsSmaller(a: set<nat>, b: set<nat>)
    requires a <= b
    ensures |a| <= |b|
  {
    if a != {} {
      var x :| x in a;
      SubsetIsSmaller(a - {x}, b - {x});
    }
  }
}
