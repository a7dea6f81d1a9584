/** The booking lifecycle (services/booking.service.js): creating a request,
    the status dispatch with its notifications and ledger entries, change
    requests, contract signing, removal and the per-party listings. Each
    handler is one atomic, sequential step over the database. */
module BookingService {
  import opened Common
  import opened BookingModel
  import opened Store

  /** Decimal text of a number, as a template literal prints an integer. */
  function NatToString(n: nat): (r: string)
    ensures |r| >= 1
    decreases n
  {
    var d := "0123456789"[n % 10];
    if n < 10 then [d] else NatToString(n / 10) + [d]
  }

  function IntToString(i: int): (r: string)
    ensures |r| >= 1
  {
    if i < 0 then "-" + NatToString(-i) else NatToString(i)
  }

  /** The system message posted for a request that came with a note: a
      header naming the trailer, the dates and the price, then the note. */
  function BookingNote(title: string, startDate: string, endDate: string, price: int, note: string): (r: string)
    ensures |r| > |note| && r[|r| - |note|..] == note
  {
    var head := "\U{1F4C5} Booking Request for \"" + title + "\"\nDates: " + startDate + " to " + endDate
      + "\nPrice: $" + IntToString(price) + "\n\n";
    assert (head + note)[|head|..] == note;
    head + note
  }

  /** The fields `create` hands to `BookingModel.create`. */
  function RequestFields(userId: Option<Id>, trailerId: Id, startDate: Option<string>, endDate: Option<string>,
                         price: Option<int>, message: Option<string>, ownerId: Id): Fields
  {
    Fields(ownerId := Some(ownerId), userId := userId, trailerId := Some(trailerId),
           startDate := startDate, notes := None, endDate := endDate, price := price,
           totalPaid := Some(0), status := None, message := Some(Text(message)),
           contractSigned := None, returnStatus := None, finalTotal := None,
           stripeSessionId := None, createdAt := None)
  }

  /** The booking `create` stores, when the request passes validation. */
  lemma CreatedBooking(userId: Option<Id>, trailerId: Id, startDate: Option<string>, endDate: Option<string>,
                       price: Option<int>, message: Option<string>, ownerId: Id, now: nat)
    requires Build(RequestFields(userId, trailerId, startDate, endDate, price, message, ownerId), now).Ok?
    ensures var b := Build(RequestFields(userId, trailerId, startDate, endDate, price, message, ownerId), now).value;
      && userId.Some? && b.userId == userId.value && b.ownerId == ownerId && b.trailerId == trailerId
      && b.totalPaid == 0 && b.status == "pending" && !b.contractSigned
      && b.message == Text(message) && b.notes == "" && b.createdAt == now
  {
  }

  /** The find-or-create step of `create`: the first chat with exactly the
      two participants, or a new one `[a, b]` when there is none. */
  method FindOrCreateChat(db: Database, a: Id, b: Id) returns (c: nat)
    requires db.Valid()
    modifies db`chats
    ensures db.Valid()
    ensures FindChat(db.chats, a, b) == Some(c)
    ensures FindChat(old(db.chats), a, b).Some? ==> c == FindChat(old(db.chats), a, b).value && db.chats == old(db.chats)
    ensures FindChat(old(db.chats), a, b).None? ==> c == |old(db.chats)| && db.chats == old(db.chats) + [Chat([a, b], "")]
  {
    var found := FindChat(db.chats, a, b);
    if found.None? {
      c := |db.chats|;
      FindChatAfterAppend(db.chats, Chat([a, b], ""), a, b);
      forall i | 0 <= i < |db.chats|
        ensures Members(db.chats[i]) != Members(Chat([a, b], ""))
      {
        if Members(db.chats[i]) == Members(Chat([a, b], "")) {
          SamePairMatches(db.chats[i], a, b);
          assert false;
        }
      }
      db.chats := db.chats + [Chat([a, b], "")];
    } else {
      c := found.value;
    }
  }

  /** The note step of `create`: store the message in chat `c` and cache it
      as the chat's last message. */
  method PostNote(db: Database, c: nat, sender: Id, content: string, now: nat, ghost a: Id, ghost b: Id)
    requires db.Valid() && c < |db.chats|
    modifies db`chats, db`messages
    ensures db.Valid()
    ensures db.messages == old(db.messages) + [Message(c, sender, content, [], now)]
    ensures db.chats == old(db.chats)[c := old(db.chats)[c].(lastMessage := content)]
    ensures FindChat(db.chats, a, b) == FindChat(old(db.chats), a, b)
  {
    db.messages := db.messages + [Message(c, sender, content, [], now)];
    CacheLastMessage(db, c, content, a, b);
  }

  /** Cache `content` as chat `c`'s last message; who is in which chat does
      not change. */
  method CacheLastMessage(db: Database, c: nat, content: string, ghost a: Id, ghost b: Id)
    requires db.Valid() && c < |db.chats|
    modifies db`chats
    ensures db.Valid()
    ensures db.chats == old(db.chats)[c := old(db.chats)[c].(lastMessage := content)]
    ensures FindChat(db.chats, a, b) == FindChat(old(db.chats), a, b)
  {
    ghost var before := db.chats;
    db.chats := db.chats[c := db.chats[c].(lastMessage := content)];
    FindChatIgnoresNonParticipantFields(before, db.chats, a, b);
    DistinctPairsKeepParticipants(before, db.chats);
  }

  /** The chat steps of `create`: find or create the chat of renter `a` and
      owner `b`, and post `content` there when the renter left a `note`. */
  method OpenChat(db: Database, a: Id, b: Id, note: string, content: string, now: nat) returns (chat: nat)
    requires db.Valid()
    modifies db`chats, db`messages
    ensures db.Valid()
    // the chat: the one found, or a new one when none matched; no other chat changes
    ensures FindChat(db.chats, a, b) == Some(chat)
    ensures FindChat(old(db.chats), a, b).Some? ==>
      chat == FindChat(old(db.chats), a, b).value && |db.chats| == |old(db.chats)|
      && db.chats[chat].participants == old(db.chats)[chat].participants
    ensures FindChat(old(db.chats), a, b).None? ==>
      chat == |old(db.chats)| && |db.chats| == |old(db.chats)| + 1 && db.chats[chat].participants == [a, b]
    ensures forall i :: 0 <= i < |old(db.chats)| && i != chat ==> db.chats[i] == old(db.chats)[i]
    // the note, posted only when there is one
    ensures note != "" ==>
      db.messages == old(db.messages) + [Message(chat, a, content, [], now)]
      && db.chats[chat].lastMessage == content
    ensures note == "" ==>
      db.messages == old(db.messages)
      && (chat < |old(db.chats)| ==> db.chats[chat] == old(db.chats)[chat])
      && (chat == |old(db.chats)| ==> db.chats[chat].lastMessage == "")
  {
    chat := FindOrCreateChat(db, a, b);
    if note != "" {
      PostNote(db, chat, a, content, now, a, b);
    }
  }

  /** The writes of `create` once the booking has passed validation: store
      it, open the renter/owner chat as `OpenChat` says, and notify renter
      then owner. `chat` is the chat used. */
  method Insert(db: Database, b: Booking, note: string, content: string, now: nat) returns (id: Id, ghost chat: nat)
    requires db.Valid() && Wellformed(b) && b.trailerId in db.trailers
    modifies db`bookings, db`chats, db`messages, db`notifications, db`nextId
    ensures db.Valid()
    ensures id !in old(db.bookings) && db.bookings == old(db.bookings)[id := b]
    ensures FindChat(db.chats, b.userId, b.ownerId) == Some(chat)
    ensures FindChat(old(db.chats), b.userId, b.ownerId).Some? ==>
      chat == FindChat(old(db.chats), b.userId, b.ownerId).value && |db.chats| == |old(db.chats)|
      && db.chats[chat].participants == old(db.chats)[chat].participants
    ensures FindChat(old(db.chats), b.userId, b.ownerId).None? ==>
      chat == |old(db.chats)| && |db.chats| == |old(db.chats)| + 1 && db.chats[chat].participants == [b.userId, b.ownerId]
    ensures forall i :: 0 <= i < |old(db.chats)| && i != chat ==> db.chats[i] == old(db.chats)[i]
    ensures note != "" ==>
      db.messages == old(db.messages) + [Message(chat, b.userId, content, [], now)]
      && db.chats[chat].lastMessage == content
    ensures note == "" ==>
      db.messages == old(db.messages)
      && (chat < |old(db.chats)| ==> db.chats[chat] == old(db.chats)[chat])
      && (chat == |old(db.chats)| ==> db.chats[chat].lastMessage == "")
    // two notifications, renter first, then owner
    ensures db.notifications == old(db.notifications) + [
      Notification(b.userId, "Booking Request Sent"), Notification(b.ownerId, "New Booking Request")]
  {
    id := db.FreshId();
    db.bookings := db.bookings[id := b];
    chat := OpenChat(db, b.userId, b.ownerId, note, content, now);
    Notify2(db, b, "Booking Request Sent", "New Booking Request");
  }

  /** `create`: look the trailer up (NotFound when it is missing), build the
      booking with the trailer's owner copied in (Invalid when a required
      field is missing), then write it as `Insert` says. A failed call
      writes nothing. */
  method Create(db: Database, userId: Option<Id>, trailerId: Id, startDate: Option<string>, endDate: Option<string>,
                price: Option<int>, message: Option<string>, now: nat)
    returns (r: Result<Id>, ghost chat: nat)
    requires db.Valid()
    modifies db`bookings, db`chats, db`messages, db`notifications, db`nextId
    ensures db.Valid()
    ensures trailerId !in db.trailers ==> r == Err(NotFound)
    ensures trailerId in db.trailers ==>
      (r.Ok? <==> Build(RequestFields(userId, trailerId, startDate, endDate, price, message, db.trailers[trailerId].userId), now).Ok?)
    ensures r.Err? ==> r.error == (if trailerId in db.trailers then Invalid else NotFound)
    ensures r.Err? ==> (db.bookings == old(db.bookings) && db.chats == old(db.chats)
                        && db.messages == old(db.messages) && db.notifications == old(db.notifications))
    ensures r.Ok? ==> trailerId in db.trailers && userId.Some? && r.value !in old(db.bookings)
    ensures r.Ok? ==>
      var b := Build(RequestFields(userId, trailerId, startDate, endDate, price, message, db.trailers[trailerId].userId), now).value;
      && db.bookings == old(db.bookings)[r.value := b]
      && b.ownerId == db.trailers[trailerId].userId && b.userId == userId.value
      && b.totalPaid == 0 && b.status == "pending" && b.message == Text(message)
    // the chat that was found or created, and the note
    ensures r.Ok? ==> var u, owner := userId.value, db.trailers[trailerId].userId;
      && FindChat(db.chats, u, owner) == Some(chat)
      && (FindChat(old(db.chats), u, owner).Some? ==>
            chat == FindChat(old(db.chats), u, owner).value && |db.chats| == |old(db.chats)|
            && db.chats[chat].participants == old(db.chats)[chat].participants)
      && (FindChat(old(db.chats), u, owner).None? ==>
            chat == |old(db.chats)| && |db.chats| == |old(db.chats)| + 1 && db.chats[chat].participants == [u, owner])
      && (forall i :: 0 <= i < |old(db.chats)| && i != chat ==> db.chats[i] == old(db.chats)[i])
    ensures r.Ok? && Text(message) != "" ==>
      var b := db.bookings[r.value];
      var content := BookingNote(db.trailers[trailerId].details.title, b.startDate, b.endDate, b.price, Text(message));
      db.messages == old(db.messages) + [Message(chat, b.userId, content, [], now)] && db.chats[chat].lastMessage == content
    ensures r.Ok? && Text(message) == "" ==>
      && db.messages == old(db.messages)
      && (chat < |old(db.chats)| ==> db.chats[chat] == old(db.chats)[chat])
      && (chat == |old(db.chats)| ==> db.chats[chat].lastMessage == "")
    ensures r.Ok? ==> db.notifications == old(db.notifications) + [
      Notification(userId.value, "Booking Request Sent"),
      Notification(db.trailers[trailerId].userId, "New Booking Request")]
  {
    if trailerId !in db.trailers {
      return Err(NotFound), 0;
    }
    var trailer := db.trailers[trailerId];
    var built := Build(RequestFields(userId, trailerId, startDate, endDate, price, message, trailer.userId), now);
    if built.Err? {
      return Err(built.error), 0;
    }
    CreatedBooking(userId, trailerId, startDate, endDate, price, message, trailer.userId, now);
    var id;
    var b := built.value;
    id, chat := Insert(db, b, Text(message), BookingNote(trailer.details.title, b.startDate, b.endDate, b.price, Text(message)), now);
    return Ok(id), chat;
  }

  /** The branches of the status dispatch: the five values it names, and
      every other string. */
  datatype StatusKind = Accepted | Rejected | Cancelled | Paid | Completed | Other

  /** Which branch a new status value takes; the comparison is on the exact string. */
  function Kind(status: string): (k: StatusKind)
    ensures k == Accepted <==> status == "accepted"
    ensures k == Rejected <==> status == "rejected"
    ensures k == Cancelled <==> status == "cancelled"
    ensures k == Paid <==> status == "paid"
    ensures k == Completed <==> status == "completed"
    ensures k == Other <==> status !in {"accepted", "rejected", "cancelled", "paid", "completed"}
  {
    if status == "accepted" then Accepted
    else if status == "rejected" then Rejected
    else if status == "cancelled" then Cancelled
    else if status == "paid" then Paid
    else if status == "completed" then Completed
    else Other
  }

  /** The notification titles of each branch, for renter and owner. */
  function StatusTitles(status: string): (r: (string, string))
    ensures r.0 == r.1 <==> status != "accepted" && status != "paid"
    ensures Kind(status) == Other ==> r.0 == "Booking " + status
  {
    match Kind(status)
    case Accepted => ("Booking Approved!", "Booking Approved")
    case Rejected => ("Booking Rejected", "Booking Rejected")
    case Cancelled => ("Booking Cancelled", "Booking Cancelled")
    case Paid => ("Payment Successful", "Payment Received")
    case Completed => ("Booking Completed", "Booking Completed")
    case Other => ("Booking " + status, "Booking " + status)
  }

  /** The notifications a status change emits: always one to the renter,
      then one to the owner, whatever the status. */
  function StatusNotices(b: Booking, status: string): (r: seq<Notification>)
    ensures |r| == 2 && r[0].userId == b.userId && r[1].userId == b.ownerId
    ensures Kind(status) == Other ==> r[0].title == r[1].title == "Booking " + status
  {
    [Notification(b.userId, StatusTitles(status).0), Notification(b.ownerId, StatusTitles(status).1)]
  }

  /** The ledger entries a status change writes: for "accepted" a pending
      pair and for "paid" a paid pair, each for the booking's price, one to
      the renter and one to the owner; for any other status none. */
  function StatusLedger(b: Booking, status: string): (r: seq<Transaction>)
    ensures |r| == (if status == "accepted" || status == "paid" then 2 else 0)
    ensures |r| == 2 ==> r[0].userId == b.userId && r[1].userId == b.ownerId
    ensures forall t :: t in r ==> t.amount == b.price
    ensures forall t :: t in r ==> t.status == (if status == "paid" then TxPaid else TxPending)
  {
    match Kind(status)
    case Accepted => [Transaction(b.userId, b.price, TxPending), Transaction(b.ownerId, b.price, TxPending)]
    case Paid => [Transaction(b.userId, b.price, TxPaid), Transaction(b.ownerId, b.price, TxPaid)]
    case _ => []
  }

  /** The two `createNotification` calls of a handler: renter first, then owner. */
  method Notify2(db: Database, b: Booking, renterTitle: string, ownerTitle: string)
    requires db.Valid()
    modifies db`notifications
    ensures db.Valid()
    ensures db.notifications == old(db.notifications) + [Notification(b.userId, renterTitle), Notification(b.ownerId, ownerTitle)]
  {
    db.Notify(b.userId, renterTitle);
    db.Notify(b.ownerId, ownerTitle);
  }

  /** The two `createTransaction` calls of the "accepted" and "paid"
      branches: one entry for the booking's price per party. */
  method Record2(db: Database, b: Booking, status: TxStatus)
    requires db.Valid()
    modifies db`transactions
    ensures db.Valid()
    ensures db.transactions == old(db.transactions) + [Transaction(b.userId, b.price, status), Transaction(b.ownerId, b.price, status)]
  {
    db.Record(b.userId, b.price, status);
    db.Record(b.ownerId, b.price, status);
  }

  /** `changeStatus`: set the status, whatever it was before, and dispatch on
      the new value alone. Only the status field of the booking changes. */
  method ChangeStatus(db: Database, id: Id, status: string) returns (r: Outcome)
    requires db.Valid()
    modifies db`bookings, db`notifications, db`transactions
    ensures db.Valid()
    ensures id !in old(db.bookings) ==> r == Failed(NotFound) && unchanged(db)
    ensures id in old(db.bookings) ==> var b := old(db.bookings)[id];
      && r == Done
      && db.bookings == old(db.bookings)[id := b.(status := status)]
      && db.notifications == old(db.notifications) + StatusNotices(b, status)
      && db.transactions == old(db.transactions) + StatusLedger(b, status)
  {
    if id !in db.bookings {
      return Failed(NotFound);
    }
    var updated := db.bookings[id].(status := status);
    db.bookings := db.bookings[id := updated];
    var titles := StatusTitles(status);
    Notify2(db, updated, titles.0, titles.1);
    if status == "accepted" {
      Record2(db, updated, TxPending);
    } else if status == "paid" {
      Record2(db, updated, TxPaid);
    }
    return Done;
  }

  /** `requestChange`: overwrite the dates and notes and put the booking back
      to "pending" from any status. The contract flag, the owner and the
      price stay. A missing date fails validation on save and nothing is written. */
  method RequestChange(db: Database, id: Id, startDate: Option<string>, endDate: Option<string>, notes: Option<string>)
    returns (r: Outcome)
    requires db.Valid()
    modifies db`bookings, db`notifications
    ensures db.Valid()
    ensures id !in old(db.bookings) ==> r == Failed(NotFound) && unchanged(db)
    ensures id in old(db.bookings) ==>
      var b := old(db.bookings)[id];
      var changed := b.(startDate := Text(startDate), endDate := Text(endDate), notes := Text(notes), status := "pending");
      if Text(startDate) != "" && Text(endDate) != "" then
        && r == Done
        && db.bookings == old(db.bookings)[id := changed]
        && db.notifications == old(db.notifications) + [
             Notification(b.userId, "Booking Change Requested"),
             Notification(b.ownerId, "Booking Change Request")]
      else
        r == Failed(Invalid) && unchanged(db)
  {
    if id !in db.bookings {
      return Failed(NotFound);
    }
    var booking := db.bookings[id];
    booking := booking.(startDate := Text(startDate));
    booking := booking.(endDate := Text(endDate));
    booking := booking.(notes := Text(notes));
    booking := booking.(status := "pending");
    if !Wellformed(booking) {
      return Failed(Invalid);
    }
    db.bookings := db.bookings[id := booking];
    db.Notify(booking.userId, "Booking Change Requested");
    db.Notify(booking.ownerId, "Booking Change Request");
    return Done;
  }

  /** `signContract`: the one operation guarded on the prior state. Only an
      accepted booking can be signed; signing sets the flag and keeps the status. */
  method SignContract(db: Database, id: Id) returns (r: Outcome)
    requires db.Valid()
    modifies db`bookings, db`notifications
    ensures db.Valid()
    ensures id !in old(db.bookings) ==> r == Failed(NotFound) && unchanged(db)
    ensures id in old(db.bookings) && old(db.bookings)[id].status != "accepted" ==>
      r == Failed(InvalidState) && unchanged(db)
    ensures id in old(db.bookings) && old(db.bookings)[id].status == "accepted" ==>
      var b := old(db.bookings)[id];
      && r == Done
      && db.bookings == old(db.bookings)[id := b.(contractSigned := true)]
      && db.notifications == old(db.notifications) + [
           Notification(b.userId, "Contract Signed"), Notification(b.ownerId, "Contract Signed")]
  {
    if id !in db.bookings {
      return Failed(NotFound);
    }
    var booking := db.bookings[id];
    if booking.status != "accepted" {
      return Failed(InvalidState);
    }
    booking := booking.(contractSigned := true);
    db.bookings := db.bookings[id := booking];
    db.Notify(booking.userId, "Contract Signed");
    db.Notify(booking.ownerId, "Contract Signed");
    return Done;
  }

  /** `remove`: delete by id; reports success whether or not the id existed. */
  method Remove(db: Database, id: Id) returns (r: Outcome)
    requires db.Valid()
    modifies db`bookings
    ensures db.Valid()
    ensures r == Done && db.bookings == old(db.bookings) - {id}
  {
    db.bookings := db.bookings - {id};
    return Done;
  }

  /** `getAllForBuyer`: the bookings whose renter is `user`. */
  function ForBuyer(bookings: map<Id, Booking>, user: Id): (r: set<Id>)
    ensures r <= bookings.Keys
    ensures forall id :: id in bookings ==> (id in r <==> bookings[id].userId == user)
  {
    set id | id in bookings && bookings[id].userId == user
  }

  /** `getAllForSeller`: the bookings whose owner is `owner`. */
  function ForSeller(bookings: map<Id, Booking>, owner: Id): (r: set<Id>)
    ensures r <= bookings.Keys
    ensures forall id :: id in bookings ==> (id in r <==> bookings[id].ownerId == owner)
  {
    set id | id in bookings && bookings[id].ownerId == owner
  }

  /** A booking appears in its renter's and its owner's listings, and a change
      of status, of dates or of the contract flag moves it between neither. */
  lemma ListingsFollowParties(bookings: map<Id, Booking>, id: Id, b: Booking)
    requires id in bookings
    requires b.userId == bookings[id].userId && b.ownerId == bookings[id].ownerId
    ensures id in ForBuyer(bookings, b.userId) && id in ForSeller(bookings, b.ownerId)
    ensures forall u :: ForBuyer(bookings[id := b], u) == ForBuyer(bookings, u)
    ensures forall o :: ForSeller(bookings[id := b], o) == ForSeller(bookings, o)
  {
  }

  /** The end-to-end scenario, first half: a request at price 50 starts
      pending with nothing paid, and accepting it writes two pending entries
      of 50, one per party. */
  method RequestThenAccept(db: Database, renter: Id, trailerId: Id, now: nat) returns (id: Id)
    requires db.Valid() && trailerId in db.trailers
    modifies db`bookings, db`chats, db`messages, db`notifications, db`transactions, db`nextId
    ensures db.Valid() && id in db.bookings
    ensures db.bookings[id].status == "accepted" && db.bookings[id].price == 50
    ensures db.bookings[id].userId == renter && db.bookings[id].ownerId == db.trailers[trailerId].userId
  {
    var owner := db.trailers[trailerId].userId;
    var r, _ := Create(db, Some(renter), trailerId, Some("2026-01-01"), Some("2026-01-03"), Some(50), None, now);
    assert r.Ok?;
    id := r.value;
    assert db.bookings[id].status == "pending" && db.bookings[id].totalPaid == 0;
    var ledger := db.transactions;
    var s := ChangeStatus(db, id, "accepted");
    assert db.transactions == ledger + [Transaction(renter, 50, TxPending), Transaction(owner, 50, TxPending)];
  }

  /** The second half: an accepted booking can be signed, paying it writes
      the paid pair, and once paid it can no longer be signed. */
  method SignThenPay(db: Database, id: Id)
    requires db.Valid() && id in db.bookings && db.bookings[id].status == "accepted"
    modifies db`bookings, db`notifications, db`transactions
    ensures id in db.bookings && db.bookings[id].status == "paid" && db.bookings[id].contractSigned
  {
    var b := db.bookings[id];
    var signed := SignContract(db, id);
    assert signed == Done && db.bookings[id].contractSigned;
    var ledger := db.transactions;
    var s := ChangeStatus(db, id, "paid");
    assert db.transactions == ledger + [Transaction(b.userId, b.price, TxPaid), Transaction(b.ownerId, b.price, TxPaid)];
    var again := SignContract(db, id);
    assert again == Failed(InvalidState);
  }
}
