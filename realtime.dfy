/** The socket handlers of index.js: relaying a message, the typing
    indicators and the two read receipts. Rooms are chat ids; every event
    the server sends is appended to a log. */
module Realtime {
  import opened Common
  import opened Store

  datatype Event =
    | ReceiveMessage(message: Message)
    | UserTyping(chatId: Id, userId: Id)
    | UserStoppedTyping(chatId: Id, userId: Id)
    | MessageRead(message: Message)
    | ChatRead(chatId: Id, userId: Id)

  /** One event sent to a room. `skipsSender` is true for `socket.to(room)`,
      which leaves out the emitting socket, and false for `io.to(room)`,
      which reaches every member. */
  datatype Emission = Emission(room: Id, skipsSender: bool, event: Event)

  /** `$addToSet: { readBy: u }` on one message: `u` is now a reader, no
      reader is lost and nothing else about the message changes. */
  function MarkRead(m: Message, u: Id): (r: Message)
    ensures u in r.readBy
    ensures forall y :: y in m.readBy ==> y in r.readBy
    ensures forall y :: y in r.readBy ==> y in m.readBy || y == u
    ensures r == m.(readBy := r.readBy)
    ensures NoDup(m.readBy) ==> NoDup(r.readBy)
  {
    m.(readBy := AddToSet(m.readBy, u))
  }

  /** Marking a message read twice is marking it once. */
  lemma MarkReadIdempotent(m: Message, u: Id)
    ensures MarkRead(MarkRead(m, u), u) == MarkRead(m, u)
  {
    AddToSetIdempotent(m.readBy, u);
  }

  /** The filter of `markChatAsRead`: a message of the chat that `u` did not send. */
  predicate Selected(m: Message, chatId: Id, u: Id) {
    m.chatId == chatId && m.sender != u
  }

  /** The `updateMany` of `markChatAsRead` over the whole message store. */
  function MarkChat(messages: seq<Message>, chatId: Id, u: Id): (r: seq<Message>)
    ensures |r| == |messages|
    ensures forall i :: 0 <= i < |messages| && Selected(messages[i], chatId, u) ==>
      r[i] == MarkRead(messages[i], u)
    ensures forall i :: 0 <= i < |messages| && !Selected(messages[i], chatId, u) ==> r[i] == messages[i]
    ensures forall i :: 0 <= i < |messages| && NoDup(messages[i].readBy) ==> NoDup(r[i].readBy)
  {
    seq(|messages|, i requires 0 <= i < |messages| =>
      if Selected(messages[i], chatId, u) then MarkRead(messages[i], u) else messages[i])
  }

  /** Marking a chat read twice is marking it once. */
  lemma MarkChatIdempotent(messages: seq<Message>, chatId: Id, u: Id)
    ensures MarkChat(MarkChat(messages, chatId, u), chatId, u) == MarkChat(messages, chatId, u)
  {
    var once := MarkChat(messages, chatId, u);
    var twice := MarkChat(once, chatId, u);
    forall i | 0 <= i < |messages|
      ensures twice[i] == once[i]
    {
      if Selected(messages[i], chatId, u) {
        MarkReadIdempotent(messages[i], u);
      }
    }
  }

  /** Afterwards every message of the chat lists `u` as a reader, except the
      ones `u` sent, which were not touched. */
  lemma MarkChatLeavesChatRead(messages: seq<Message>, chatId: Id, u: Id, i: nat)
    requires i < |messages| && messages[i].chatId == chatId
    ensures messages[i].sender != u ==> u in MarkChat(messages, chatId, u)[i].readBy
    ensures messages[i].sender == u ==> MarkChat(messages, chatId, u)[i] == messages[i]
  {
  }

  /** The socket server over the database. */
  class Gateway {
    const db: Database
    var emitted: seq<Emission>

    ghost predicate Valid()
      reads this, db
    {
      db.Valid()
    }

    constructor (db: Database)
      requires db.Valid()
      ensures this.db == db && emitted == [] && Valid()
    {
      this.db := db;
      emitted := [];
    }

    /** `broadcastMessage`: relay an already stored message to its chat's
      room; nothing is written. */
    method BroadcastMessage(m: Message)
      requires Valid()
      modifies this`emitted
      ensures Valid()
      ensures emitted == old(emitted) + [Emission(m.chatId, false, ReceiveMessage(m))]
      ensures db.messages == old(db.messages)
    {
      emitted := emitted + [Emission(m.chatId, false, ReceiveMessage(m))];
    }

    /** `typing`: tell the rest of the room, not the typist. */
    method Typing(chatId: Id, userId: Id)
      requires Valid()
      modifies this`emitted
      ensures Valid()
      ensures emitted == old(emitted) + [Emission(chatId, true, UserTyping(chatId, userId))]
      ensures db.messages == old(db.messages)
    {
      emitted := emitted + [Emission(chatId, true, UserTyping(chatId, userId))];
    }

    /** `stopTyping`: as `typing`, with the stop event. */
    method StopTyping(chatId: Id, userId: Id)
      requires Valid()
      modifies this`emitted
      ensures Valid()
      ensures emitted == old(emitted) + [Emission(chatId, true, UserStoppedTyping(chatId, userId))]
      ensures db.messages == old(db.messages)
    {
      emitted := emitted + [Emission(chatId, true, UserStoppedTyping(chatId, userId))];
    }

    /** `markAsRead`: add the reader to one message and announce the updated
      message to the room the client named; a missing message changes
      nothing and announces nothing. */
    method MarkAsRead(messageId: nat, chatId: Id, userId: Id)
      requires Valid()
      modifies db`messages, this`emitted
      ensures Valid()
      ensures messageId >= |old(db.messages)| ==> db.messages == old(db.messages) && emitted == old(emitted)
      ensures messageId < |old(db.messages)| ==>
        && db.messages == old(db.messages)[messageId := MarkRead(old(db.messages)[messageId], userId)]
        && emitted == old(emitted) + [Emission(chatId, false, MessageRead(db.messages[messageId]))]
    {
      if messageId >= |db.messages| {
        return;
      }
      var updated := MarkRead(db.messages[messageId], userId);
      db.messages := db.messages[messageId := updated];
      emitted := emitted + [Emission(chatId, false, MessageRead(updated))];
    }

    /** `markChatAsRead`: add the reader to every message of the chat that
      the reader did not send, one document at a time, then announce it once. */
    method MarkChatAsRead(chatId: Id, userId: Id)
      requires Valid()
      modifies db`messages, this`emitted
      ensures Valid()
      ensures db.messages == MarkChat(old(db.messages), chatId, userId)
      ensures emitted == old(emitted) + [Emission(chatId, false, ChatRead(chatId, userId))]
    {
      ghost var target := MarkChat(db.messages, chatId, userId);
      var i := 0;
      while i < |db.messages|
        invariant 0 <= i <= |db.messages| == |target|
        invariant emitted == old(emitted)
        invariant forall k :: 0 <= k < i ==> db.messages[k] == target[k]
        invariant forall k :: i <= k < |db.messages| ==> db.messages[k] == old(db.messages)[k]
      {
        if Selected(db.messages[i], chatId, userId) {
          db.messages := db.messages[i := MarkRead(db.messages[i], userId)];
        }
        i := i + 1;
      }
      assert db.messages == target;
      emitted := emitted + [Emission(chatId, false, ChatRead(chatId, userId))];
    }
  }
}
