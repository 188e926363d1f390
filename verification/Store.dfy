/** The tables of app/domain/models.py, and what each committed transaction of the saga does to them.
  * An id is a row's index. None stands for a transaction that raised IllegalTransition and rolled back. */
module Store {
  import opened Domain
  import opened Inventory
  import Money

  /** A booking with its passengers: passenger k was given seats[k]. */
  datatype Booking = Booking(user: nat, flight: nat, state: BookingState, total: int, key: string, seats: seq<nat>)

  datatype Payment = Payment(amount: int, state: PaymentState, ref: Option<nat>, key: string)

  datatype Ticket = Ticket(booking: nat, passenger: nat, seat: nat, voided: bool)

  datatype AuditRow = AuditRow(booking: nat, number: nat, event: Event, from: Option<BookingState>, to: Option<BookingState>)

  datatype Tables = Tables(
    seats: seq<Seat>,
    bookings: seq<Booking>,
    payments: map<nat, Payment>,  // by booking id
    tickets: seq<Ticket>,
    audit: seq<AuditRow>,
    nextHold: nat)

  // ----- audit.record -----

  function MaxNumber(audit: seq<AuditRow>, b: nat): nat {
    if audit == [] then 0
    else
      var last := audit[|audit| - 1];
      var rest := MaxNumber(audit[..|audit| - 1], b);
      if last.booking == b && last.number > rest then last.number else rest
  }

  function Record(audit: seq<AuditRow>, b: nat, event: Event, from: Option<BookingState>, to: Option<BookingState>): seq<AuditRow> {
    audit + [AuditRow(b, MaxNumber(audit, b) + 1, event, from, to)]
  }

  function Note(audit: seq<AuditRow>, b: nat, event: Event): seq<AuditRow> {
    Record(audit, b, event, None, None)
  }

  // ----- holds -----

  function TakeSeat(db: Tables, user: nat, flight: nat, place: Place, now: int, ttl: nat): Tables {
    db.(seats := TakeAt(db.seats, flight, place, user, db.nextHold, now, ttl), nextHold := db.nextHold + 1)
  }

  function VoidTickets(tickets: seq<Ticket>, b: nat): seq<Ticket> {
    seq(|tickets|, t requires 0 <= t < |tickets| =>
      if tickets[t].booking == b then tickets[t].(voided := true) else tickets[t])
  }

  /** release_seats_for_booking. */
  function ReturnSeats(db: Tables, b: nat): Tables {
    db.(tickets := VoidTickets(db.tickets, b), seats := Return(db.seats, b))
  }

  // ----- step 1 -----

  datatype Creation = HoldsNotFound | HoldExpired | NotOneFlight | Created(tables: Tables)

  predicate AnyExpired(seats: seq<Seat>, ids: seq<nat>, now: int)
    requires InTable(seats, ids)
  {
    exists k | 0 <= k < |ids| :: Lapsed(seats[ids[k]], now) || !seats[ids[k]].status.Held?
  }

  predicate OneFlight(seats: seq<Seat>, ids: seq<nat>)
    requires InTable(seats, ids)
  {
    |ids| > 0 && forall k | 0 <= k < |ids| :: seats[ids[k]].flight == seats[ids[0]].flight
  }

  function PriceList(seats: seq<Seat>, ids: seq<nat>): seq<int>
    requires InTable(seats, ids)
  {
    seq(|ids|, k requires 0 <= k < |ids| => seats[ids[k]].price)
  }

  /** money(sum(...)): the prices are added as decimal amounts, and the sum is rounded to cents. */
  function Total(seats: seq<Seat>, ids: seq<nat>): int
    requires InTable(seats, ids)
  {
    Money.Cents(Money.SumAmounts(PriceList(seats, ids)))
  }

  lemma {:induction false} TotalIsSum(seats: seq<Seat>, ids: seq<nat>)
    requires InTable(seats, ids)
    ensures Total(seats, ids) == SumPrices(seats, ids)
  {
    Money.TotalIsExact(PriceList(seats, ids));
    PriceListSums(seats, ids);
  }

  lemma {:induction false} PriceListSums(seats: seq<Seat>, ids: seq<nat>)
    requires InTable(seats, ids)
    ensures Money.SumCents(PriceList(seats, ids)) == SumPrices(seats, ids)
  {
    if ids != [] {
      PriceListSums(seats, ids[..|ids| - 1]);
      assert PriceList(seats, ids)[..|ids| - 1] == PriceList(seats, ids[..|ids| - 1]);
    }
  }

  function CreateBooking(db: Tables, user: nat, key: string, holds: seq<nat>, now: int): Creation {
    var ids := Matched(db.seats, |db.seats|, holds, user);
    if |ids| != |holds| then HoldsNotFound
    else if AnyExpired(db.seats, ids, now) then HoldExpired
    else if !OneFlight(db.seats, ids) then NotOneFlight
    else
      var b := |db.bookings|;
      var order := SortByPlace(db.seats, ids);
      var booking := Booking(user, db.seats[ids[0]].flight, Pending, Total(db.seats, ids), key, order);
      var audit := Record(db.audit, b, EvBookingCreated, None, Some(Pending));
      Created(db.(bookings := db.bookings + [booking],
                  seats := Pin(db.seats, order, b),
                  audit := Note(audit, b, EvSeatsLocked)))
  }

  // ----- later transactions; `from` is the booking state as the session loaded it -----

  predicate Exists(db: Tables, b: nat) {
    b < |db.bookings|
  }

  function Enter(db: Tables, b: nat, event: Event, from: BookingState, to: BookingState): Tables
    requires Exists(db, b)
  {
    db.(bookings := db.bookings[b := db.bookings[b].(state := to)],
        audit := Record(db.audit, b, event, Some(from), Some(to)))
  }

  function SetPayment(db: Tables, b: nat, state: PaymentState, ref: Option<nat>): Tables {
    if b !in db.payments then db
    else db.(payments := db.payments[b := db.payments[b].(state := state, ref := ref)])
  }

  function MarkPayment(db: Tables, b: nat, state: PaymentState): Tables {
    if b !in db.payments then db
    else db.(payments := db.payments[b := db.payments[b].(state := state)])
  }

  function AuthKey(key: string): string {
    key + ":auth"
  }

  function InsertPayment(db: Tables, b: nat): Tables
    requires Exists(db, b)
  {
    db.(payments := db.payments[b := Payment(db.bookings[b].total, PayPending, None, AuthKey(db.bookings[b].key))])
  }

  function RecordTimeout(db: Tables, b: nat): Tables {
    MarkPayment(db, b, PayUnknown).(audit := Note(db.audit, b, EvPaymentUnknown))
  }

  function FailPayment(db: Tables, b: nat, from: BookingState): Option<Tables>
    requires Exists(db, b)
  {
    if !CanTransition(from, PaymentFailed) then None
    else
      var entered := Enter(db, b, EvPaymentDeclined, from, PaymentFailed);
      Some(entered.(seats := Unpin(db.seats, b)))
  }

  function RecordDecline(db: Tables, b: nat, from: BookingState, ref: nat): Option<Tables>
    requires Exists(db, b)
  {
    FailPayment(SetPayment(db, b, PayDeclined, Some(ref)), b, from)
  }

  function RecordApproval(db: Tables, b: nat, from: BookingState, ref: nat): Option<Tables>
    requires Exists(db, b)
  {
    if !CanTransition(from, PaymentAuthorized) then None
    else Some(Enter(SetPayment(db, b, PayAuthorized, Some(ref)), b, EvPaymentAuthorized, from, PaymentAuthorized))
  }

  // ----- step 4 -----

  predicate StillOurs(seat: Seat, b: nat, user: nat) {
    seat.booking == Some(b) && seat.holder == Some(user)
  }

  /** The test the code makes on each re-locked row, as written there. */
  predicate Lost(seat: Seat, b: nat, user: nat) {
    !StillOurs(seat, b, user) || (seat.status.Booked? && seat.booking != Some(b))
  }

  predicate AnyLost(seats: seq<Seat>, ids: seq<nat>, b: nat, user: nat)
    requires InTable(seats, ids)
  {
    exists k | 0 <= k < |ids| :: Lost(seats[ids[k]], b, user)
  }

  /** One row in the log for each seat that is still ours although its hold ran out, in ascending id. */
  function NoteReclaimed(audit: seq<AuditRow>, seats: seq<Seat>, n: nat, ids: seq<nat>, b: nat, user: nat, now: int): seq<AuditRow>
    requires n <= |seats|
  {
    if n == 0 then audit
    else
      var rest := NoteReclaimed(audit, seats, n - 1, ids, b, user, now);
      if n - 1 in ids && !Lost(seats[n - 1], b, user) && Lapsed(seats[n - 1], now)
      then Note(rest, b, EvHoldLost) else rest
  }

  function NewTickets(b: nat, ids: seq<nat>): seq<Ticket> {
    seq(|ids|, k requires 0 <= k < |ids| => Ticket(b, k, ids[k], false))
  }

  datatype Issue = Issued(tables: Tables) | Refused(tables: Tables) | Illegal

  /** Refused carries the rows that are written but not yet committed when the exception is raised. */
  function IssueTickets(db: Tables, b: nat, user: nat, from: BookingState, rejected: bool, now: int): Issue
    requires Exists(db, b) && InTable(db.seats, db.bookings[b].seats)
  {
    var ids := db.bookings[b].seats;
    var audit := NoteReclaimed(db.audit, db.seats, |db.seats|, ids, b, user, now);
    if AnyLost(db.seats, ids, b, user) then Refused(db.(audit := Note(audit, b, EvHoldLost)))
    else if rejected then Refused(db.(audit := Note(audit, b, EvTicketingFailed)))
    else if !CanTransition(from, Ticketed) then Illegal
    else
      var sold := db.(tickets := db.tickets + NewTickets(b, ids), seats := Sell(db.seats, ids, b), audit := audit);
      Issued(Enter(sold, b, EvTicketsIssued, from, Ticketed))
  }

  // ----- compensation -----

  function BeginCompensation(db: Tables, b: nat, from: BookingState): Option<Tables>
    requires Exists(db, b)
  {
    if !CanTransition(from, Compensating) then None
    else Some(Enter(db, b, EvCompensationStarted, from, Compensating))
  }

  function CompensationFailed(db: Tables, b: nat, from: BookingState): Tables
    requires Exists(db, b)
  {
    var returned := ReturnSeats(Enter(db, b, EvCompensationFailed, from, NeedsManualReview), b);
    returned.(audit := Note(returned.audit, b, EvSeatsReleased))
  }

  function CompensationDone(db: Tables, b: nat, from: BookingState, refunded: bool): Option<Tables>
    requires Exists(db, b)
  {
    if !CanTransition(from, Voided) then None
    else
      var paid := MarkPayment(db, b, if refunded then PayRefunded else PayVoided);
      var returned := ReturnSeats(paid, b);
      var noted := Note(db.audit, b, if refunded then EvPaymentRefunded else EvPaymentVoided);
      Some(returned.(audit := Note(noted, b, EvSeatsReleased),
                     bookings := db.bookings[b := db.bookings[b].(state := Voided)]))
  }

  // ----- confirm and cancel -----

  function Confirm(db: Tables, b: nat, from: BookingState): Option<Tables>
    requires Exists(db, b)
  {
    if !CanTransition(from, Confirmed) then None
    else Some(Enter(MarkPayment(db, b, PayCaptured), b, EvBookingConfirmed, from, Confirmed))
  }

  datatype RefundResult = NothingToRefund | RefundDone | RefundRejected

  predicate Refundable(db: Tables, b: nat) {
    b in db.payments && (db.payments[b].state.PayAuthorized? || db.payments[b].state.PayCaptured?)
  }

  function Cancel(db: Tables, b: nat, from: BookingState, refund: RefundResult): Option<Tables>
    requires Exists(db, b)
  {
    if refund.RefundRejected? then Some(Enter(db, b, EvCompensationFailed, from, NeedsManualReview))
    else if !CanTransition(from, Cancelled) then None
    else
      var paid := if refund.RefundDone? then MarkPayment(db, b, PayRefunded) else db;
      Some(Enter(ReturnSeats(paid, b), b, EvBookingCancelled, from, Cancelled))
  }
}
