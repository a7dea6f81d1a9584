/** The Booking document: its fields, the schema's defaults, its required
    fields and the `returnStatus` enumeration (models/booking.model.js). */
module BookingModel {
  import opened Common

  /** The three values the schema's `returnStatus` enumeration admits. */
  datatype ReturnStatus = ReturnPending | Returned | Disputed {
    function Name(): string {
      match this
      case ReturnPending => "pending"
      case Returned => "returned"
      case Disputed => "disputed"
    }
  }

  /** The enumeration validator: a string is accepted only if it names one of
      the three values. */
  function ParseReturnStatus(s: string): (r: Option<ReturnStatus>)
    ensures r.Some? <==> s == "pending" || s == "returned" || s == "disputed"
    ensures r.Some? ==> r.value.Name() == s
  {
    if s == "pending" then Some(ReturnPending)
    else if s == "returned" then Some(Returned)
    else if s == "disputed" then Some(Disputed)
    else None
  }

  lemma ParseName(rs: ReturnStatus)
    ensures ParseReturnStatus(rs.Name()) == Some(rs)
  {
  }

  /** A stored booking. Numbers are modelled as integers: the core copies
      `price` and `total_paid` but does no arithmetic on them. `createdAt` is
      a timestamp supplied by the caller in place of `Date.now`. */
  datatype Booking = Booking(
    ownerId: Id,
    userId: Id,
    trailerId: Id,
    startDate: string,
    notes: string,
    endDate: string,
    price: int,
    totalPaid: int,
    status: string,
    message: string,
    contractSigned: bool,
    returnStatus: ReturnStatus,
    finalTotal: Option<int>,
    stripeSessionId: string,
    createdAt: nat)

  /** What validation on `save()` demands of a stored booking beyond its
      field types: the two required String paths are non-empty (Mongoose's
      `required` refuses the empty string as well as a missing value). */
  predicate Wellformed(b: Booking) {
    b.startDate != "" && b.endDate != ""
  }

  /** The values handed to `BookingModel.create`; `None` is an absent field. */
  datatype Fields = Fields(
    ownerId: Option<Id>,
    userId: Option<Id>,
    trailerId: Option<Id>,
    startDate: Option<string>,
    notes: Option<string>,
    endDate: Option<string>,
    price: Option<int>,
    totalPaid: Option<int>,
    status: Option<string>,
    message: Option<string>,
    contractSigned: Option<bool>,
    returnStatus: Option<string>,
    finalTotal: Option<int>,
    stripeSessionId: Option<string>,
    createdAt: Option<nat>)

  /** The schema's required fields are present (and, for strings, non-empty)
      and `returnStatus`, when given, is in the enumeration. */
  predicate Admissible(f: Fields) {
    && f.ownerId.Some? && f.userId.Some? && f.trailerId.Some?
    && Text(f.startDate) != "" && Text(f.endDate) != ""
    && f.price.Some?
    && (f.returnStatus.Some? ==> ParseReturnStatus(f.returnStatus.value).Some?)
  }

  /** `BookingModel.create(fields)`: validation, then the document with the
      schema's defaults filled in for every absent field. */
  function Build(f: Fields, now: nat): (r: Result<Booking>)
    ensures r.Ok? <==> Admissible(f)
    ensures r.Err? ==> r.error == Invalid
    ensures r.Ok? ==> Wellformed(r.value)
    // required fields are copied
    ensures r.Ok? ==> var b := r.value;
      && b.ownerId == f.ownerId.value && b.userId == f.userId.value
      && b.trailerId == f.trailerId.value && b.price == f.price.value
      && b.startDate == f.startDate.value && b.endDate == f.endDate.value
    // every optional field is the supplied value when there is one ...
    ensures r.Ok? ==> var b := r.value;
      && (f.notes.Some? ==> b.notes == f.notes.value)
      && (f.totalPaid.Some? ==> b.totalPaid == f.totalPaid.value)
      && (f.status.Some? ==> b.status == f.status.value)
      && (f.message.Some? ==> b.message == f.message.value)
      && (f.contractSigned.Some? ==> b.contractSigned == f.contractSigned.value)
      && (f.returnStatus.Some? ==> b.returnStatus.Name() == f.returnStatus.value)
      && b.finalTotal == f.finalTotal
      && (f.stripeSessionId.Some? ==> b.stripeSessionId == f.stripeSessionId.value)
      && (f.createdAt.Some? ==> b.createdAt == f.createdAt.value)
    // ... and the schema's default otherwise
    ensures r.Ok? ==> var b := r.value;
      && (f.notes.None? ==> b.notes == "")
      && (f.totalPaid.None? ==> b.totalPaid == 0)
      && (f.status.None? ==> b.status == "pending")
      && (f.message.None? ==> b.message == "")
      && (f.contractSigned.None? ==> !b.contractSigned)
      && (f.returnStatus.None? ==> b.returnStatus == ReturnPending)
      && (f.stripeSessionId.None? ==> b.stripeSessionId == "")
      && (f.createdAt.None? ==> b.createdAt == now)
  {
    if !Admissible(f) then Err(Invalid)
    else
      Ok(Booking(
        ownerId := f.ownerId.value,
        userId := f.userId.value,
        trailerId := f.trailerId.value,
        startDate := f.startDate.value,
        notes := f.notes.OrElse(""),
        endDate := f.endDate.value,
        price := f.price.value,
        totalPaid := f.totalPaid.OrElse(0),
        status := f.status.OrElse("pending"),
        message := f.message.OrElse(""),
        contractSigned := f.contractSigned.OrElse(false),
        returnStatus := if f.returnStatus.Some? then ParseReturnStatus(f.returnStatus.value).value else ReturnPending,
        finalTotal := f.finalTotal,
        stripeSessionId := f.stripeSessionId.OrElse(""),
        createdAt := f.createdAt.OrElse(now)))
  }

  /** A field set holding only the required fields. */
  function RequiredOnly(ownerId: Id, userId: Id, trailerId: Id, startDate: string, endDate: string, price: int): Fields {
    Fields(Some(ownerId), Some(userId), Some(trailerId), Some(startDate), None, Some(endDate), Some(price),
           None, None, None, None, None, None, None, None)
  }

  /** A booking built from its required fields alone carries every default:
      pending, nothing paid, no contract, return pending, no final total. */
  lemma DefaultsOfNewBooking(ownerId: Id, userId: Id, trailerId: Id, startDate: string, endDate: string, price: int, now: nat)
    requires startDate != "" && endDate != ""
    ensures Build(RequiredOnly(ownerId, userId, trailerId, startDate, endDate, price), now)
         == Ok(Booking(ownerId, userId, trailerId, startDate, "", endDate, price, 0, "pending", "",
                       false, ReturnPending, None, "", now))
  {
  }

  /** Leaving out any one required field makes creation fail. */
  lemma RequiredFieldsAreRequired(f: Fields, now: nat)
    requires f.ownerId.None? || f.userId.None? || f.trailerId.None? || f.price.None?
          || Text(f.startDate) == "" || Text(f.endDate) == ""
    ensures Build(f, now) == Err(Invalid)
  {
  }
}
