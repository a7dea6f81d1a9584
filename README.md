# lorepa-backend bookkeeping, in Dafny

A verified model of the rental-booking core of the lorepa-backend service
(Node.js, Express, Mongoose, socket.io). The model covers four parts:

- **Booking lifecycle** (`booking_service.dfy`). It covers creating a request, which
  means finding or creating the chat of renter and owner, posting the request note
  and notifying both parties. It also covers the status dispatch with its
  notifications and ledger entries, change requests, contract signing, removal
  and the per-party listings.
- **Booking record** (`booking_model.dfy`). It covers the schema's required fields,
  its defaults and the `returnStatus` enumeration.
- **Trailer listings** (`trailer_service.dfy`). It covers the image-count rules, the
  placeholder fallback, the keep/append image list, the `??` field merge, the
  status notification, and the location terms and sort order of search.
- **The socket gateway and the reverse-geocode endpoint** (`realtime.dfy`,
  `geocode.dfy`). The gateway covers the read receipts, typing indicators and
  message relay. The endpoint covers the priority-ordered Google extraction,
  the Nominatim fallback that fills only empty fields, and the response.

The database is one `Store.Database` object. It holds maps of trailers and
bookings keyed by ids that come from one counter. It also holds sequences of
chats, messages, notifications and transactions; a chat's id and a message's
id are their positions. Each request handler is one method, run as an atomic,
sequential step. Its contract states the whole new state in terms of the old
one. `Database.Valid` is preserved by every handler. It says:

- every id is below the counter;
- every stored booking has a start and an end date, and names a stored trailer;
- every listing has at most 10 images;
- every chat has two participants, and no two chats have the same pair;
- no message lists a reader twice.

Replies from services that are not part of this model are inputs. File-storage
uploads are a function `File -> Option<string>`. The two geocoder replies are
`Option` values, in which `None` is a call that threw or came back empty. The
current time is a `now` parameter.

The source files are cited below by path relative to the repository root.

Helpers without a row serve a rowed member. `TrailerService.ImageField.Truthy` is the truthiness test of
services/trailer.service.js:286, and `TrailerService.ImageField.Listed` is its `Array.isArray(raw) ? raw : [raw]`
at line 288. Both are used by `TrailerService.PickExisting` and `TrailerService.KeptImages`.

## Model

| member | source | states |
|---|---|---|
| Common.Or | services/booking.service.js:30 | JavaScript `a \|\| b` on strings: the first operand unless it is empty |
| Common.Text | services/booking.service.js:251 | `s \|\| ""` on an optional field: empty exactly when absent or empty, otherwise the supplied value |
| Common.AddToSet | index.js:198 | `$addToSet`: the element is present afterwards, nothing is lost, nothing else is added, the old array is a prefix, no duplicates are introduced |
| Common.AddToSetIdempotent | index.js:196-200 | adding the same reader twice equals adding it once |
| BookingModel.ParseReturnStatus | models/booking.model.js:15 | the enumeration accepts exactly "pending", "returned" and "disputed", and the parsed value names the input |
| BookingModel.ParseName | models/booking.model.js:15 | every enumeration value survives the round trip through its name |
| BookingModel.Build | models/booking.model.js:3-19 | creation succeeds iff owner, renter, trailer, price and non-empty dates are given and `returnStatus` is in the enumeration; a failure is Invalid; supplied fields are kept; every absent field takes the schema default ("" notes/message/session, 0 paid, "pending", not signed, return pending, no final total, `now`) |
| BookingModel.DefaultsOfNewBooking | models/booking.model.js:8-18 | a booking built from its required fields alone is pending, unpaid, unsigned, return-pending and has no final total |
| BookingModel.RequiredFieldsAreRequired | models/booking.model.js:4-10 | leaving out any required field, or giving an empty date, makes creation fail with Invalid |
| Store.ChatMatches | services/booking.service.js:37 | `{$all: [a, b], $size: 2}`: exactly two participants, and a and b both among them |
| Store.FindChat | services/booking.service.js:37 | the first chat matching `{$all: [a, b], $size: 2}`, none before it matching; None iff no chat matches |
| Store.MatchIsExactPair | services/booking.service.js:36-37 | for distinct renter and owner the query matches exactly the two-party chats whose participant set is {a, b}, in either order |
| Store.SelfBookingMatchesAnyChatWithRenter | services/booking.service.js:36-37 | when renter and owner coincide the query also matches a chat of that user with someone else |
| Store.FindChatAfterAppend | services/booking.service.js:38-40 | a chat created because none matched is the one found from then on |
| Store.FindChatIgnoresNonParticipantFields | services/booking.service.js:50-51 | updating `lastMessage` does not change which chat the lookup finds |
| Store.SamePairMatches | services/booking.service.js:36-40 | a two-party chat with the members of `[a, b]` is matched, so a new chat is only created for a pair that has none and no two chats share a pair |
| Store.Database.Notify | services/booking.service.js:54-64 | `createNotification` appends exactly one notification for that recipient and title |
| Store.Database.Record | services/booking.service.js:149-160 | `createTransaction` appends exactly one ledger entry for that party, amount and status |
| BookingService.BookingNote | services/booking.service.js:44 | the posted chat message ends with the renter's note, after a non-empty header |
| BookingService.CreatedBooking | services/booking.service.js:23-32 | a created booking has the renter and the trailer's owner, nothing paid, status "pending", not signed, no notes, and the supplied message or "" |
| BookingService.FindOrCreateChat | services/booking.service.js:36-40 | reuses the first matching chat unchanged, or appends one new chat `[renter, owner]` and uses it |
| BookingService.PostNote | services/booking.service.js:43-52 | appends one message (that chat, that sender, that content, no readers) and sets that chat's `lastMessage` to the content |
| BookingService.CacheLastMessage | services/booking.service.js:50-51 | only that chat's `lastMessage` changes, so the chat lookup still finds the same chat |
| BookingService.OpenChat | services/booking.service.js:35-52 | the chat count grows by at most one, no other chat changes, and a message is posted iff there is a note |
| BookingService.Insert | services/booking.service.js:23-64 | stores the booking under a fresh id, opens the chat and appends exactly two notifications, renter first and then owner |
| BookingService.Create | services/booking.service.js:8-73 | a missing trailer gives NotFound and writes nothing; a failed validation gives Invalid and writes nothing; otherwise the booking holds the trailer's owner, paid 0, "pending" and the note, the chat used is the first old match with its participants kept or a new `[renter, owner]` chat, the note is posted iff non-empty, and two notifications follow |
| BookingService.Kind | services/booking.service.js:136-219 | each of the five named branches is taken iff the new status is exactly its string, and every other string takes the catch-all |
| BookingService.StatusNotices | services/booking.service.js:136-230 | every status change notifies exactly twice, renter then owner; an unknown status uses "Booking <status>" for both |
| BookingService.StatusTitles | services/booking.service.js:136-230 | renter and owner get the same title except for "accepted" and "paid"; an unknown status is titled "Booking <status>" |
| BookingService.StatusLedger | services/booking.service.js:149-206 | "accepted" writes two pending entries and "paid" two paid entries, renter then owner, each for the booking's price; any other status writes none |
| BookingService.Notify2 | services/booking.service.js:54-64 | the paired `createNotification` calls: exactly two notifications, renter first, then owner |
| BookingService.Record2 | services/booking.service.js:149-160 | the paired `createTransaction` calls: exactly two ledger entries for the booking's price, renter first, then owner |
| BookingService.ChangeStatus | services/booking.service.js:124-238 | a missing id gives NotFound and writes nothing; otherwise only the booking's status changes, whatever it was, and the notifications and ledger grow by exactly StatusNotices and StatusLedger |
| BookingService.RequestChange | services/booking.service.js:240-276 | dates and notes are overwritten and the status is reset to "pending" from any status, the contract flag is kept, and the two change notices are sent; a missing date fails and writes nothing |
| BookingService.SignContract | services/booking.service.js:279-309 | fails with InvalidState and writes nothing unless the status is "accepted"; otherwise sets the contract flag, keeps the status and notifies both parties |
| BookingService.Remove | services/booking.service.js:114-122 | the id is removed from the bookings, and the call succeeds whether or not it existed |
| BookingService.ForBuyer | services/booking.service.js:84-92 | exactly the bookings whose renter is the user |
| BookingService.ForSeller | services/booking.service.js:93-101 | exactly the bookings whose owner is the user |
| BookingService.ListingsFollowParties | services/booking.service.js:84-101 | a booking is in its renter's and its owner's listings, and changing anything but the parties changes no listing |
| BookingService.RequestThenAccept | services/booking.service.js:124-160 | a new request starts pending and then unpaid, and accepting it writes two pending ledger entries for its price |
| BookingService.SignThenPay | services/booking.service.js:279-291 | an accepted booking can be signed; after "paid" it is paid and signed, and signing again is refused |
| TrailerService.CheckFileCount | services/trailer.service.js:32-37 | a listing needs between 1 and 10 files; otherwise the result is Invalid |
| TrailerService.UploadAll | services/trailer.service.js:42 | `Promise.all` of the uploads succeeds iff every upload does, and then gives the URLs in file order |
| TrailerService.CreationImages | services/trailer.service.js:39-48 | one image per file; when any upload fails every image is the placeholder and a warning is reported; otherwise the uploaded URLs |
| TrailerService.PickExisting | services/trailer.service.js:285 | `existingImages` when truthy, otherwise the `existingImages[]` field |
| TrailerService.Filter | services/trailer.service.js:289 | an image is kept iff it is stored and listed; never longer than the stored list |
| TrailerService.FilterAppend | services/trailer.service.js:289 | the filter distributes over concatenation, so kept images stay in stored order |
| TrailerService.FilterKeepsAll | services/trailer.service.js:289 | listing every stored image keeps the list unchanged |
| TrailerService.FilterIdempotent | services/trailer.service.js:289 | filtering twice with the same list is filtering once |
| TrailerService.KeptImages | services/trailer.service.js:282-293 | none kept when no existing images are listed; otherwise exactly the stored images that are listed |
| TrailerService.Merge | services/trailer.service.js:304-327 | each attribute takes the supplied value when not null or undefined and keeps the stored one otherwise |
| TrailerService.MergeExtremes | services/trailer.service.js:304-327 | an empty request keeps everything, a full request replaces everything, and a supplied "" replaces |
| TrailerService.MergeIdempotent | services/trailer.service.js:304-327 | applying the same update twice equals applying it once |
| TrailerService.Create | services/trailer.service.js:5-72 | a wrong file count gives Invalid and creates nothing; otherwise one listing is stored with the creation images, the owner and no deposit rate, with one "Trailer Listing Submitted" notice to its owner |
| TrailerService.ChangeStatus | services/trailer.service.js:226-248 | on an existing id only the status changes, and exactly one notice "Trailer <status>" goes to the owner; a missing id writes nothing |
| TrailerService.Update | services/trailer.service.js:250-336 | a missing id gives NotFound; with new files, more than 10 kept plus new images gives Invalid and a failed upload gives UpstreamError, each writing nothing; otherwise the images become kept followed by uploaded, the attributes are merged and the listing keeps at most 10 images |
| TrailerService.Trim | services/trailer.service.js:99 | the result is the slice of the input left once the white space before and after it is removed; it neither starts nor ends with white space |
| TrailerService.SplitFrom | services/trailer.service.js:99 | the split read so far always yields at least one piece |
| TrailerService.Split | services/trailer.service.js:99 | `split` on `[,\s]+` always yields at least one piece |
| TrailerService.SplitPieces | services/trailer.service.js:99 | the pieces of the split on `[,\s]+` contain no separator, and together they are the input without its separators, in order |
| TrailerService.SplitFromWord | services/trailer.service.js:99 | text without separators is read into the current piece whole |
| TrailerService.DropSeparatorRun | services/trailer.service.js:99 | a run of separators before a non-separator is consumed whole |
| TrailerService.SplitWord | services/trailer.service.js:99 | text without separators splits into itself alone |
| TrailerService.SplitBreaks | services/trailer.service.js:99 | the pieces break exactly at maximal separator runs: a word, a run, then the rest split the same way; a leading separator gives a first piece "" |
| TrailerService.Utf16Length | services/trailer.service.js:99 | `length` counts UTF-16 code units: between one and two per character, one per character inside the Basic Multilingual Plane |
| TrailerService.Utf16LengthOfOne | services/trailer.service.js:99 | one character has length two exactly when it lies outside the Basic Multilingual Plane |
| TrailerService.LongPieces | services/trailer.service.js:99 | a piece is kept iff its JavaScript length is at least two |
| TrailerService.LongPiecesAppend | services/trailer.service.js:99 | the filter distributes over concatenation, so the kept pieces stay in order |
| TrailerService.LongPiecesOfOne | services/trailer.service.js:99 | one piece is kept iff its JavaScript length is at least two |
| TrailerService.LocationTerms | services/trailer.service.js:98-101 | no terms for an absent or empty location; otherwise a word is a term iff it is a piece of the trimmed text whose JavaScript length is at least two |
| TrailerService.LocationTermsAreWords | services/trailer.service.js:98-99 | a word is a term iff it is a piece of the trimmed input of JavaScript length two or more; no term holds a comma or white space |
| TrailerService.SortFor | services/trailer.service.js:128-147 | the sort is by daily rate iff `sortBy` is price_asc or price_desc, and ascending iff it is price_asc or oldest |
| TrailerService.DefaultSortIsNewest | services/trailer.service.js:142-147 | a missing or unknown `sortBy` sorts newest first, as "newest" does |
| Geocode.Find | index.js:65 | the first component carrying one of the types, none before it; None iff no component carries one |
| Geocode.FirstNonEmpty | index.js:71 | the first non-empty string of the list, empty iff all are empty |
| Geocode.ExtractFromGoogle | index.js:63-75 | the city is the first non-empty of locality, sublocality, second- and first-level area; the state is the first-level area's short name, or its long name when the short one is empty; the country is the country component's long name |
| Geocode.CityIsFirstCandidate | index.js:71 | the `\|\|` chain of the source picks the first non-empty candidate |
| Geocode.LocalityWins | index.js:71 | a locality name beats every other candidate, and no candidate gives no city |
| Geocode.Primary | index.js:99-114 | a failed, non-OK or empty Google reply leaves every field empty; an OK reply gives the fields extracted from the first result and its formatted address |
| Geocode.FromNominatim | index.js:78-92 | nothing for an error reply; the city is the first non-empty of city, town, village, suburb and county; the state is state or region; the country and the display name are copied |
| Geocode.FillEmpty | index.js:120-132 | a field already set is kept, and an empty field takes the fallback's value |
| Geocode.FillEmptyIdempotent | index.js:120-132 | filling twice is filling once, and a complete place is left as it is |
| Geocode.FallbackAddress | index.js:144 | `city[, state], country`, never empty |
| Geocode.Respond | index.js:138-150 | OK iff a city or a country is known, with a non-empty formatted address; ZERO_RESULTS otherwise |
| Geocode.ReverseGeocode | index.js:94-155 | a missing lat or lng is rejected; the fallback reply is consulted only when the Google city is empty and fills only empty fields |
| Realtime.MarkRead | index.js:196-200 | the user becomes a reader, no reader is lost, nothing else about the message changes |
| Realtime.MarkReadIdempotent | index.js:196-200 | marking a message read twice equals marking it once |
| Realtime.MarkChat | index.js:214-217 | every message of the chat not sent by the user gets exactly the set-add of the user to its readers; every other message is unchanged; no reader is listed twice |
| Realtime.MarkChatIdempotent | index.js:214-217 | marking a chat read twice equals marking it once |
| Realtime.MarkChatLeavesChatRead | index.js:214-217 | afterwards each message of the chat lists the user, except the user's own messages, which are untouched |
| Realtime.Gateway.BroadcastMessage | index.js:174-181 | one receiveMessage event to the message's chat room; no stored message changes |
| Realtime.Gateway.Typing | index.js:184-186 | one userTyping event to the room, skipping the sender; no stored message changes |
| Realtime.Gateway.StopTyping | index.js:188-190 | one userStoppedTyping event to the room, skipping the sender; no stored message changes |
| Realtime.Gateway.MarkAsRead | index.js:193-208 | only that message's readers change, by a set-add; the updated message is announced once; a missing message changes nothing and announces nothing |
| Realtime.Gateway.MarkChatAsRead | index.js:211-222 | the store becomes MarkChat of the old store, and exactly one chatRead event is emitted, not one per message |

## Left out

- HTTP plumbing: requests, response bodies and status codes are not modelled. Handlers return `Result`/`Outcome` values (NotFound, InvalidState, Invalid, UpstreamError).
- `populate`: the ObjectId-versus-string comparisons and the notification description texts are not modelled. Notifications keep only the recipient and the title, and ledger entries only the party, the amount and the status.
- A booking whose trailer was deleted: the source then throws on `trailerId.title` after the status is saved. Trailer removal is not modelled, and `Database.Valid` requires every stored booking to name a stored trailer, so that throw cannot happen in the model.
- Booking and trailer `changeStatus` on a missing id send no response at all. The model reports NotFound and writes nothing.
- Booking `getAll`/`getSingle` and trailer `getAll`/`getAllApproved`/`getSingle`/`getAllBySeller`/`remove`/`debugLocations` are not modelled. They are plain queries or deletes with no rule to prove; the `createdAt` sort of the listings is not modelled either.
- Search: the `$regex` matching of terms and category, the price bounds (`parseFloat` gives floats) and the query itself are not modelled. Only the term list and the sort key are.
- `TrailerService.Create`: the trailer schema (trailer.model.js) is not part of this model. The initial status "pending" is an assumption; attributes are strings and "" is a missing one.
- `TrailerService.Update`: a failed upload reports UpstreamError. The source throws into its generic 500 handler; unlike `create`, it has no placeholder fallback. As in the source, the update is refused only when new files would take the count over 10; with no new files the kept images are a subset of the stored ones, so `Database.Valid` keeps the bound.
- `Realtime.Gateway`: room membership, `joinChat`, `disconnect` and the populate of the sender are not modelled. An emission records only its room and whether the sender is skipped.
- `Geocode.ReverseGeocode`: the axios calls, timeouts and the `parseFloat` of lat/lng in the answer are not modelled. Coordinates are checked only for presence.
- `TrailerService.IsSpace`: JavaScript strings are UTF-16, while Dafny characters are Unicode scalar values, so lone surrogates are not represented. The term filter counts UTF-16 units through `TrailerService.Utf16Length`, so a single character outside the Basic Multilingual Plane is a term, as in JavaScript.
- `price`, `total_paid` and ledger amounts: the schema types them as JavaScript Numbers (floating point), but the model uses `int`. So a fractional price such as 49.99, and its text in `BookingService.BookingNote`'s "Price: $49.99", are not represented.
- Concurrency: the interleavings between the `await` steps, including two simultaneous find-or-create chat calls, are not modelled. Each handler is one atomic step.
- Not part of this model: services/document.service.js (upload plumbing with a 1..15 file-count check), routers/stripe.router.js (a Stripe checkout whose only computation is a float), utils/email.js and utils/test-email.js (SMTP), and the routers (route wiring). The notification, transaction, chat and message models are not part of this model either; their documents are the `Store` datatypes.
