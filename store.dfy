/** The document collections the services read and write, held in memory:
    trailers, bookings, chats, messages, notifications and transactions. */
module Store {
  import opened Common
  import opened BookingModel

  /** The listing attributes `create` and `update` copy from the request.
      They arrive as multipart form fields, i.e. text; the empty string stands
      for a field the trailer does not have. */
  datatype Details = Details(
    latitude: string, longitude: string, title: string, category: string,
    description: string, zip: string, dailyRate: string, depositRate: string,
    city: string, country: string, closedDates: string, hitchType: string,
    state: string, lightPlug: string, weightCapacity: string, make: string,
    model: string, year: string, length: string, ballSize: string,
    dimensions: string)

  /** The most images a listing may have. */
  const MaxImages: nat := 10

  /** A trailer listing: its owner, moderation status, image URLs and attributes. */
  datatype Trailer = Trailer(userId: Id, status: string, images: seq<string>, details: Details)

  /** A conversation; `participants` holds the two account ids in the order
      they were given when the chat was created. */
  datatype Chat = Chat(participants: seq<Id>, lastMessage: string)

  /** A chat message; `readBy` is the array of accounts that have seen it. */
  datatype Message = Message(chatId: Id, sender: Id, content: string, readBy: seq<Id>, createdAt: nat)

  /** A notification; its interpolated description text is not modelled. */
  datatype Notification = Notification(userId: Id, title: string)

  datatype TxStatus = TxPending | TxPaid

  /** A ledger entry for one party of a booking; the description text is not modelled. */
  datatype Transaction = Transaction(userId: Id, amount: int, status: TxStatus)

  /** The chat query `{ participants: { $all: [a, b], $size: 2 } }`: two
      participants, and each of a and b is one of them. */
  predicate ChatMatches(c: Chat, a: Id, b: Id): (r: bool)
    ensures r <==> |c.participants| == 2 && a in c.participants && b in c.participants
  {
    var p := c.participants;
    |p| == 2 && (p[0] == a || p[1] == a) && (p[0] == b || p[1] == b)
  }

  /** The accounts taking part in a chat, as a set. */
  function Members(c: Chat): set<Id> {
    set x | x in c.participants
  }

  /** No two chats have the same members. */
  predicate DistinctPairs(chats: seq<Chat>) {
    forall i, j :: 0 <= i < j < |chats| ==> Members(chats[i]) != Members(chats[j])
  }

  /** Changing what a chat caches, and not who is in it, keeps the chats distinct. */
  lemma DistinctPairsKeepParticipants(chats: seq<Chat>, chats': seq<Chat>)
    requires DistinctPairs(chats) && |chats| == |chats'|
    requires forall i :: 0 <= i < |chats| ==> chats'[i].participants == chats[i].participants
    ensures DistinctPairs(chats')
  {
    forall i, j | 0 <= i < j < |chats'|
      ensures Members(chats'[i]) != Members(chats'[j])
    {
      assert Members(chats'[i]) == Members(chats[i]) && Members(chats'[j]) == Members(chats[j]);
    }
  }

  /** A two-party chat whose members are those of `[a, b]` is one the query
      matches, so a chat is only created for a pair that has none. */
  lemma SamePairMatches(c: Chat, a: Id, b: Id)
    requires |c.participants| == 2 && Members(c) == Members(Chat([a, b], ""))
    ensures ChatMatches(c, a, b)
  {
    assert a in Members(Chat([a, b], "")) && b in Members(Chat([a, b], ""));
  }

  /** `Chat.findOne` with that query: the first matching chat in insertion order. */
  function FindChat(chats: seq<Chat>, a: Id, b: Id): (r: Option<nat>)
    ensures r.Some? ==> r.value < |chats| && ChatMatches(chats[r.value], a, b)
    ensures r.Some? ==> forall j :: 0 <= j < r.value ==> !ChatMatches(chats[j], a, b)
    ensures r.None? <==> forall j :: 0 <= j < |chats| ==> !ChatMatches(chats[j], a, b)
    decreases |chats|
  {
    if chats == [] then None
    else if ChatMatches(chats[0], a, b) then Some(0)
    else match FindChat(chats[1..], a, b)
      case None => None
      case Some(i) => Some(i + 1)
  }

  /** For two distinct accounts the query finds exactly the chats whose
      participant set is {a, b}, whatever the order of the two. */
  lemma MatchIsExactPair(c: Chat, a: Id, b: Id)
    requires a != b
    ensures ChatMatches(c, a, b) <==> |c.participants| == 2 && (set x | x in c.participants) == {a, b}
    ensures ChatMatches(c, a, b) <==> ChatMatches(c, b, a)
  {
    if |c.participants| == 2 && (set x | x in c.participants) == {a, b} {
      assert a in (set x | x in c.participants);
      assert b in (set x | x in c.participants);
    }
    if ChatMatches(c, a, b) {
      var p := c.participants;
      assert p == [p[0], p[1]];
      assert (set x | x in p) == {p[0], p[1]};
    }
  }

  /** When the renter is the trailer's owner the query is looser: the pair
      [u, u] is "all contained" in any two-party chat that has u in it. */
  lemma SelfBookingMatchesAnyChatWithRenter(u: Id, x: Id)
    requires u != x
    ensures ChatMatches(Chat([u, x], ""), u, u)
    ensures (set y | y in [u, x]) != {u}
  {
    var p := [u, x];
    assert p[1] == x;
    var s := set y | y in p;
    assert x in s && x !in {u};
  }

  /** Updating chats without touching their participants does not move the
      lookup's answer. */
  lemma {:induction false} FindChatIgnoresNonParticipantFields(chats: seq<Chat>, chats': seq<Chat>, a: Id, b: Id)
    requires |chats| == |chats'|
    requires forall i :: 0 <= i < |chats| ==> chats[i].participants == chats'[i].participants
    ensures FindChat(chats, a, b) == FindChat(chats', a, b)
    decreases |chats|
  {
    if chats != [] {
      FindChatIgnoresNonParticipantFields(chats[1..], chats'[1..], a, b);
    }
  }

  /** A new chat appended when none matched is the one the lookup finds from then on. */
  lemma {:induction false} FindChatAfterAppend(chats: seq<Chat>, c: Chat, a: Id, b: Id)
    requires FindChat(chats, a, b).None?
    requires ChatMatches(c, a, b)
    ensures FindChat(chats + [c], a, b) == Some(|chats|)
    decreases |chats|
  {
    if chats != [] {
      assert !ChatMatches(chats[0], a, b);
      assert FindChat(chats[1..], a, b).None?;
      assert (chats + [c])[0] == chats[0];
      assert (chats + [c])[1..] == chats[1..] + [c];
      FindChatAfterAppend(chats[1..], c, a, b);
    }
  }

  /** The in-memory database. Trailers and bookings are keyed by ids drawn
      from one counter; a chat's or message's id is its position. */
  class Database {
    var trailers: map<Id, Trailer>
    var bookings: map<Id, Booking>
    var chats: seq<Chat>
    var messages: seq<Message>
    var notifications: seq<Notification>
    var transactions: seq<Transaction>
    var nextId: Id

    /** Every id in use is below the counter, no listing has more than
        `MaxImages` images, every stored booking passed validation and
        names a stored trailer, every
        chat has two participants, no two chats have the same pair of
        participants, and no message lists a reader twice. */
    ghost predicate Valid()
      reads this
    {
      && (forall id :: id in trailers ==> id < nextId && |trailers[id].images| <= MaxImages)
      && (forall id :: id in bookings ==> id < nextId && Wellformed(bookings[id]) && bookings[id].trailerId in trailers)
      && (forall i :: 0 <= i < |chats| ==> |chats[i].participants| == 2)
      && DistinctPairs(chats)
      && (forall i :: 0 <= i < |messages| ==> NoDup(messages[i].readBy))
    }

    constructor ()
      ensures Valid()
      ensures trailers == map[] && bookings == map[]
      ensures chats == [] && messages == [] && notifications == [] && transactions == []
    {
      trailers, bookings := map[], map[];
      chats, messages, notifications, transactions := [], [], [], [];
      nextId := 0;
    }

    /** A fresh document id, as the database assigns on insertion. */
    method FreshId() returns (id: Id)
      requires Valid()
      modifies this`nextId
      ensures Valid()
      ensures id !in trailers && id !in bookings
      ensures nextId == id + 1 && id == old(nextId)
    {
      id := nextId;
      nextId := nextId + 1;
    }

    /** `createNotification`: append one notification. */
    method Notify(userId: Id, title: string)
      requires Valid()
      modifies this`notifications
      ensures Valid()
      ensures notifications == old(notifications) + [Notification(userId, title)]
    {
      notifications := notifications + [Notification(userId, title)];
    }

    /** `createTransaction`: append one ledger entry. */
    method Record(userId: Id, amount: int, status: TxStatus)
      requires Valid()
      modifies this`transactions
      ensures Valid()
      ensures transactions == old(transactions) + [Transaction(userId, amount, status)]
    {
      transactions := transactions + [Transaction(userId, amount, status)];
    }
  }
}
