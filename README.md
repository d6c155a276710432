# Hostel management: the backend's table rules and the views' derivations

This project models the core of a paying-guest hostel manager. It has two parts.

**The backend (`backend/app/main.py`).** The six MySQL tables are one `Database` object:
- Guests, Rooms, Bookings, Payments, Users and MaintenanceRequests, as sequences of rows in primary-key order;
- one AUTO_INCREMENT counter per table;
- `Valid()`, which packs up every PRIMARY KEY, UNIQUE, FOREIGN KEY and column-width constraint of the DDL. A VARCHAR(n) holds n characters and a TEXT 65,535 bytes of UTF-8. A UNIQUE index compares texts as MySQL's default collation does, without regard to the case of letters.

Each endpoint is a method that answers `Ok(row)` or `Err(code)`. The codes are:
- 400: a failed constraint;
- 404: an unknown id;
- 409: a room that is not Available;
- 422: a body pydantic refuses;
- 500: an error the endpoint does not catch, or a row read back that the response model refuses.

Each method states the whole new state of the tables and counters on every path, and keeps `Valid()`. Request validation by the pydantic models and the enums is a family of pure functions over JSON bodies.

**The React views.** Five views are modelled: `MaintenanceManagement`, `BookingManagement`, `RoomManagement`, `PaymentManagement` and `Dashboard`. The status filters and counts, the first-match lookups with their `Unknown`/`-` fallbacks and the CSS badge classes are pure functions over the rows the views hold. So are the offered maintenance transitions, the submit-disabled rule, the payment total and this-month count, the dashboard aggregates and the occupancy rate. Each view's state is a class:
- the fetched lists;
- `loading` and `error`;
- `showForm` and the form.

Its methods are the component's handlers. The fetches and posts they make are parameters: the outcome of each `fetch` and of the POST is handed to the method.

Lemmas tie the two parts together:
- the JSON body a filled form posts is accepted by the endpoint as exactly the record chosen;
- the body a form allows but that cannot be valid is refused with 422;
- the foreign keys mean a listed booking never shows `Unknown` for want of a row;
- a created booking moves one room from the Available card to the Occupied card.

The files are:
- `common.dfy`: Option, Result and the status codes, calendar dates;
- `seqs.dfy`: filter, first match, column, sort and update helpers with their lemmas;
- `text.dfy`: JavaScript's `parseInt`, `parseFloat`, `toLowerCase` and `replace(' ', '-')`, Python's reading of a decimal text, UTF-8 lengths, and ISO dates;
- `schema.dfy`: the enums, the records, the pydantic validation and the DDL widths;
- `database.dfy`: the tables and the endpoints;
- `client.dfy`: the rows the views hold, fetch and post outcomes, error messages;
- one file per view.

## Model

| member | source | states |
|---|---|---|
| Schema.ParseRoomStatus | backend/app/main.py:158-161 | a text is read as a RoomStatus exactly when it is one of the enum's values, and then as that value |
| Schema.ParseBookingStatus | backend/app/main.py:163-166 | a text is read as a BookingStatus exactly when it is one of the enum's values |
| Schema.ParsePaymentMethod | backend/app/main.py:168-172 | a text is read as a PaymentMethod exactly when it is one of the four values |
| Schema.ParseMaintenanceStatus | backend/app/main.py:174-177 | a text is read as a MaintenanceStatus exactly when it is one of the three values |
| Schema.ReadInt | backend/app/main.py:217-218 | an `int` field accepts every integral JSON number as itself, and a string through `Schema.IntText`; a missing field or null is a 422 |
| Schema.ReadOptInt | backend/app/main.py:254 | an `Optional[int]` field: missing or null is `None`, an integral number is itself, a string is read by `Schema.IntText`, and every refusal is a 422 |
| Schema.ReadStr | backend/app/main.py:181-182 | a `str` field accepts exactly a JSON string, as itself |
| Schema.ReadOptStr | backend/app/main.py:183-186 | an `Optional[str]` field: missing or null is `None`, a string itself, a number 422 |
| Schema.ReadDate | backend/app/main.py:219 | a `date` field accepts the ISO text of every date as that date and refuses the empty string |
| Schema.ReadOptDate | backend/app/main.py:220 | an `Optional[date]` field: missing or null is `None`, ISO text the date, the empty string 422 |
| Schema.ReadPositiveDecimal | backend/app/main.py:202 | `Decimal = Field(..., gt=0)`: only positive numbers pass, every positive JSON number passes as itself; 0, negatives, missing and null are 422; a text is read by `Text.ParseDecimal`, white space and exponent included |
| Schema.ReadRoomStatus | backend/app/main.py:203 | a missing status defaults to Available; each enum value is read as itself; whatever passes is an enum value's text |
| Schema.ReadBookingStatus | backend/app/main.py:221 | a missing status defaults to Active; each enum value is read as itself |
| Schema.ReadPaymentMethod | backend/app/main.py:238 | the method is required; each of the four values is read as itself |
| Schema.ReadMaintenanceStatus | backend/app/main.py:257 | a missing status defaults to Pending; each enum value is read as itself |
| Schema.ValidateGuest | backend/app/main.py:180-189 | a body without `full_name` or `phone_number` is refused with 422 |
| Schema.ValidateGuestBody | backend/app/main.py:180-189 | every guest, posted as its JSON body with null for each absent optional field, is accepted as itself |
| Schema.ValidateRoom | backend/app/main.py:199-206 | an accepted room has a positive rent and, when none was given, the status Available; a missing required field is 422 |
| Schema.ValidateBooking | backend/app/main.py:216-224 | an accepted booking defaults to Active; an empty check-out text and a missing required field are 422 |
| Schema.ValidatePayment | backend/app/main.py:234-242 | an accepted payment has a positive amount; a missing required field is 422 |
| Schema.ValidateMaintenanceRequest | backend/app/main.py:252-261 | an accepted request defaults to Pending and to no guest; a missing required field is 422 |
| Schema.ValidateStatusQuery | backend/app/main.py:494-500 | the PATCH query: `status` is required and read as an enum value, `resolved_date` is optional ISO text |
| Schema.ValidateBookingBody | backend/app/main.py:216-224 | every booking, posted as its JSON body, is accepted as itself |
| Schema.ValidatePaymentBody | backend/app/main.py:234-242 | every payment with a positive amount, posted as its JSON body, is accepted as itself |
| Schema.ValidateMaintenanceRequestBody | backend/app/main.py:252-261 | every maintenance request, posted as its JSON body, is accepted as itself |
| Schema.IntText | backend/app/main.py:217-218 | an `int` field given as text, in pydantic's lax mode: the decimal text of every integer reads as that integer; a text over 4300 characters once trimmed is refused |
| Schema.IntTextLax | backend/app/main.py:217-218 | white space at either end and a point followed by zeros do not change the integer read: ` 5.00 ` is 5 |
| Backend.RoundToPaise | backend/app/main.py:75 | a DECIMAL(10,2) column stores the value rounded to the nearest paisa, never negative for a non-negative value |
| Backend.IdsBelowAppend | backend/app/main.py:60 | an AUTO_INCREMENT insert keeps the ids ascending, positive and below the counter |
| Backend.EmptyOk | backend/app/main.py:57-127 | the empty tables with every counter at 1 meet every constraint of the DDL |
| Backend.BumpOk | backend/app/main.py:60 | advancing the counters, as a failed INSERT does, keeps every constraint |
| Backend.InsertGuestOk | backend/app/main.py:59-68 | a guest row that fits its columns, the TEXT address included, and collides on no UNIQUE column up to case can be inserted, keeping every constraint |
| Backend.InsertRoomOk | backend/app/main.py:71-78 | a room row that fits and whose room number is new up to case can be inserted, keeping every constraint |
| Backend.OccupyOk | backend/app/main.py:379 | setting one room Occupied keeps every constraint |
| Backend.InsertBookingOk | backend/app/main.py:81-91 | a booking whose guest and room exist can be inserted, keeping the foreign keys and the id order |
| Backend.BookRoomOk | backend/app/main.py:369-379 | inserting a booking and then occupying its room keeps every constraint |
| Backend.InsertPaymentOk | backend/app/main.py:94-103 | a payment whose booking exists and whose amount and remarks fit can be inserted, keeping every constraint |
| Backend.InsertRequestOk | backend/app/main.py:116-126 | a request whose room exists, whose guest exists when it has one, and whose description fits the TEXT column can be inserted |
| Backend.UpdateRequestOk | backend/app/main.py:510-515 | overwriting the status and resolved date of one request keeps every constraint |
| Backend.RequestsReplaced | backend/app/main.py:116-126 | a new MaintenanceRequests table with ascending ids and valid references keeps the tables valid |
| Backend.RoomsReplaced | backend/app/main.py:71-78 | a new Rooms table with the same ids and valid rows keeps the tables valid |
| Backend.ReadBackBooking | backend/app/main.py:382-384 | `SELECT ... WHERE booking_id = id` gives the row with that id when there is one, and otherwise a 500 from the response model |
| Backend.ReadBackAsWrittenFails | backend/app/main.py:379-384 | as written, the read-back uses the `lastrowid` of the UPDATE (0), which no booking has: the answer is 500 |
| Backend.ReadBackInserted | backend/app/main.py:369-384 | read back by the id it was inserted with, the new booking is found |
| Backend.DuplicateGuestIgnoresCase | backend/app/main.py:62-65 | a guest whose phone number, e-mail and id proof number differ from a stored guest's only in case collides exactly as the original would |
| Backend.RoomNumberTakenIgnoresCase | backend/app/main.py:73 | a room number and its lower-case form are taken by the same rooms |
| Backend.Database.constructor | backend/app/main.py:57-127 | the tables start empty, with every counter at 1, and valid |
| Backend.Database.ListGuests | backend/app/main.py:278-285 | `SELECT * FROM Guests`: the stored guests in ascending id order |
| Backend.Database.ListRooms | backend/app/main.py:313-320 | the stored rooms in ascending id order; a stored rent of 0.00 fails the `gt=0` of the response model, and the whole list is 500 |
| Backend.Database.ListBookings | backend/app/main.py:347-354 | the stored bookings in ascending id order |
| Backend.Database.ListPayments | backend/app/main.py:398-405 | a permutation of the payments sorted by payment date, newest first; a stored amount of 0.00 makes the whole list 500 |
| Backend.Database.ListMaintenanceRequests | backend/app/main.py:444-451 | a permutation of the requests sorted by reported date, newest first |
| Backend.Database.CreateGuest | backend/app/main.py:287-309 | a value too long, the TEXT address included, is 500 with nothing changed; a phone, e-mail or id-proof number already stored up to case is 400 with the tables unchanged; otherwise exactly the new row is appended |
| Backend.Database.CreateRoom | backend/app/main.py:322-343 | a room number taken up to case is 400 with the tables unchanged; a value too long is 500 with nothing changed; otherwise exactly the new room is appended with its rent rounded, and the answer is that room, or 500 when the rent rounded to 0.00 |
| Backend.Database.CreateBooking | backend/app/main.py:356-394 | an unknown room is 404 and a room not Available is 409, both with nothing changed; an unknown guest is 400; otherwise one booking with the given fields is appended and only that room becomes Occupied, whatever status the booking has. The answer is then the new booking: this is the corrected read-back of the first finding, where the code as written commits and answers 500 (Backend.ReadBackAsWrittenFails) |
| Backend.Database.InsertBooking | backend/app/main.py:369-384 | the INSERT and the UPDATE committed together: one booking appended, exactly that room occupied, the row read back |
| Backend.Database.CreatePayment | backend/app/main.py:407-439 | an unknown booking is 404, whatever its status; an amount or remarks that do not fit are 400 with nothing changed; otherwise exactly the new payment is appended, and the answer is that payment, or 500 when the amount rounded to 0.00 |
| Backend.Database.CreateMaintenanceRequest | backend/app/main.py:453-492 | an unknown room is 404; an unknown guest is 404 only for a truthy id; a description beyond the TEXT column is 400 with nothing changed; guest id 0 fails the foreign key (400, taking an id); otherwise exactly the new request is appended |
| Backend.Database.InsertRequest | backend/app/main.py:470-485 | the INSERT of a request whose references hold and whose description fits appends exactly that row |
| Backend.Database.UpdateMaintenanceRequest | backend/app/main.py:494-529 | an unknown id is 404 with nothing changed; otherwise only that request's status and resolved date are overwritten, whatever the old status |
| Text.ParseInt | frontend/src/components/BookingManagement.js:65-66 | `parseInt` of text that is empty or only white space is NaN |
| Text.ParseIntRoundTrip | frontend/src/components/PaymentManagement.js:69 | `parseInt` reads the decimal text of every integer back as that integer |
| Text.ParseFloat | frontend/src/components/PaymentManagement.js:70 | `parseFloat` of empty or blank text is NaN |
| Text.ParseOfDigits | frontend/src/components/RoomManagement.js:45 | a rent typed in digits is read as that number by `parseFloat` and as a decimal |
| Text.ParseExponentForm | frontend/src/components/PaymentManagement.js:70 | `parseFloat` and pydantic both read `<a>e<e>` as a × 10^e, a negative exponent included |
| Text.Trim | backend/app/main.py:217 | Rust's `trim`, which pydantic applies to an integer text, leaves no Unicode White_Space at either end, and nothing of text that is all white space |
| Text.TrimSpaceAround | backend/app/main.py:217 | a space before or after the text does not change what `trim` leaves |
| Text.Strip | backend/app/main.py:236 | Python's `strip` leaves no white space at either end, and nothing of text that is all white space |
| Text.ParseDecimal | backend/app/main.py:236 | a text that is empty or all white space is no decimal |
| Text.ParseDecimalSpaceAround | backend/app/main.py:202 | a space before or after a decimal text does not change how it is read |
| Text.ParseSpacedExponentForm | backend/app/main.py:202 | ` <a>e<e> ` is read as a × 10^e |
| Text.IsoDate | frontend/src/components/PaymentManagement.js:17 | `toISOString().split('T')[0]` is ten characters |
| Text.IsoDateRoundTrip | frontend/src/components/MaintenanceManagement.js:115 | the ISO text of a date reads back as that date |
| Text.ToLower | frontend/src/components/BookingManagement.js:98 | `toLowerCase` keeps the length and lowers each character |
| Text.ToLowerIdempotent | backend/app/main.py:73 | lower-casing twice is lower-casing once, so a collation key is its own key |
| Text.Utf8Length | backend/app/main.py:66 | the UTF-8 size of a text is between one and four bytes per character, and one per character for ASCII text |
| Text.ReplaceFirstSpace | frontend/src/components/MaintenanceManagement.js:98 | `replace(' ', '-')` keeps the length and changes only the first space |
| Text.ReplaceFirstSpaceChars | frontend/src/components/RoomManagement.js:75 | every character before and after the first space is kept, and the first space becomes `-` |
| Client.FailureOf | frontend/src/components/BookingManagement.js:25-53 | with several fetches, under the array-order reading of `Promise.all`: a rejected fetch's message wins, then `Failed to fetch data` for a status outside 2xx, then an unreadable body; no message exactly when all succeed |
| Client.All3 | frontend/src/components/MaintenanceManagement.js:25-53 | three lists are loaded exactly when all three fetches succeed, and are then their rows |
| Client.All4 | frontend/src/components/PaymentManagement.js:26-57 | four lists are loaded exactly when all four fetches succeed |
| Client.All3Rejected | frontend/src/components/BookingManagement.js:28-32 | under the array-order reading of `Promise.all`, a rejection of the first fetch is the error shown |
| Client.ScreenOf | frontend/src/components/BookingManagement.js:112-113 | the loading screen exactly while loading; the error screen exactly when not loading with a non-empty error, showing it |
| Client.ErrorMessage | frontend/src/components/BookingManagement.js:70-73 | `errorData.detail` or the fallback: a non-empty detail is the message, an empty or missing one gives the fallback; a list of n errors gives `String(list)`, of length 16n-1, starting `[object Object]`; a body that is not JSON gives the parser's message |
| Client.ObjectList | frontend/src/components/BookingManagement.js:72 | `String` of n objects is 16n-1 characters long (empty for none), starts with `[object Object]` and, for two or more, has a comma after it |
| Client.ObjectListJoin | frontend/src/components/BookingManagement.js:72 | `String` of n objects is the `join(',')` of n copies of `[object Object]` |
| Client.FailureAlert | frontend/src/components/BookingManagement.js:85-87 | the alert of a failed post starts with `Error: ` |
| Client.ParseIntJson | frontend/src/components/MaintenanceManagement.js:65 | `parseInt` posted in JSON: NaN becomes null, a number stays that number |
| Client.IntJsonOfText | frontend/src/components/PaymentManagement.js:172 | the text of an id posts that id |
| Client.ParseFloatJson | frontend/src/components/PaymentManagement.js:70 | `parseFloat` posted in JSON: NaN becomes null |
| Client.FindByColumn | backend/app/main.py:278-285 | looking an id up among the served rows finds the served form of the stored row, and misses exactly when the table does |
| Client.ServedRoomCounts | frontend/src/components/RoomManagement.js:82-84 | the statuses of served rooms are always one of the three |
| MaintenanceView.CountWithStatus | frontend/src/components/MaintenanceManagement.js:138-140 | a status count is at most the number of requests |
| MaintenanceView.StatusCounts | frontend/src/components/MaintenanceManagement.js:138-140 | Pending + In Progress + Resolved ≤ total, with equality exactly when every status is an enum value |
| MaintenanceView.BadgeClass | frontend/src/components/MaintenanceManagement.js:97-100 | the badge class is the status lower-cased, with its first space, and only that one, turned into `-` |
| MaintenanceView.BadgeClasses | frontend/src/components/MaintenanceManagement.js:98 | the classes are `pending`, `in-progress` and `resolved` |
| MaintenanceView.RoomInfo | frontend/src/components/MaintenanceManagement.js:102-105 | `number - type` of the first room with the id, `Unknown` when none has it |
| MaintenanceView.GuestName | frontend/src/components/MaintenanceManagement.js:107-111 | `-` for a null or 0 id, the name of the first guest with the id, else `Unknown` |
| MaintenanceView.KnownGuestName | frontend/src/components/MaintenanceManagement.js:107-111 | a stored guest id shows that guest's name |
| MaintenanceView.StoredRequestGuest | frontend/src/components/MaintenanceManagement.js:107-111 | thanks to the foreign keys, every stored request shows its guest's name, or `-`, never `Unknown` |
| MaintenanceView.Actions | frontend/src/components/MaintenanceManagement.js:285-301 | no button for Resolved; Start only while Pending; Resolve for every other status |
| MaintenanceView.OfferedTransitions | frontend/src/components/MaintenanceManagement.js:285-301 | the offered moves are exactly Pending→In Progress, Pending→Resolved and In Progress→Resolved |
| MaintenanceView.ResolvedDateParam | frontend/src/components/MaintenanceManagement.js:115 | today's date is sent exactly when the new status is Resolved |
| MaintenanceView.OfferedUpdateValidates | frontend/src/components/MaintenanceManagement.js:113-116 | every offered move is accepted by the PATCH endpoint, with today's date exactly when resolving |
| MaintenanceView.WithField | frontend/src/components/MaintenanceManagement.js:90-95 | `handleChange` sets the named field and keeps the others |
| MaintenanceView.Payload | frontend/src/components/MaintenanceManagement.js:63-67 | the posted body has `room_id` through `parseInt`, `guest_id` null when the selector is empty, and no resolved date |
| MaintenanceView.SelectedFormValidates | frontend/src/components/MaintenanceManagement.js:63-67 | a form filled from the selectors and the date input is accepted as the request chosen |
| MaintenanceView.Reload | frontend/src/components/MaintenanceManagement.js:44-49 | success replaces the three lists and clears the error; failure keeps the lists and sets the message |
| MaintenanceView.MaintenanceManagement.constructor | frontend/src/components/MaintenanceManagement.js:7-19 | no data, loading, form closed and empty with today's date and Pending |
| MaintenanceView.MaintenanceManagement.FetchData | frontend/src/components/MaintenanceManagement.js:25-53 | the lists and error become the result of loading; loading ends; the form is kept |
| MaintenanceView.MaintenanceManagement.ToggleForm | frontend/src/components/MaintenanceManagement.js:148 | only `showForm` flips |
| MaintenanceView.MaintenanceManagement.HandleChange | frontend/src/components/MaintenanceManagement.js:90-95 | only the form changes, by `WithField` |
| MaintenanceView.MaintenanceManagement.HandleSubmit | frontend/src/components/MaintenanceManagement.js:55-88 | on creation: reload, close and reset the form, the success alert; otherwise nothing changes and the alert is `Error: ` and the message |
| MaintenanceView.MaintenanceManagement.HandleStatusUpdate | frontend/src/components/MaintenanceManagement.js:113-133 | sends the status and date rule; on success reloads and keeps the form; otherwise nothing changes |
| BookingView.AvailableRooms | frontend/src/components/BookingManagement.js:115 | exactly the rooms whose status is Available, in list order |
| BookingView.ActiveCount | frontend/src/components/BookingManagement.js:116 | the Active count is at most the number of bookings |
| BookingView.CountWithStatus | frontend/src/components/BookingManagement.js:116 | a status count is at most the number of bookings |
| BookingView.StatusCounts | frontend/src/components/BookingManagement.js:116 | Active + Completed + Cancelled ≤ total, with equality exactly when every status is an enum value |
| BookingView.BadgeClass | frontend/src/components/BookingManagement.js:97-100 | the badge class is the status with each character lower-cased, spaces kept |
| BookingView.BadgeClassKeepsSpace | frontend/src/components/BookingManagement.js:98 | with no `replace`, a two-word status keeps its space: `In Progress` gives `in progress` |
| BookingView.BadgeClasses | frontend/src/components/BookingManagement.js:98 | the classes are `active`, `completed` and `cancelled` |
| BookingView.GuestName | frontend/src/components/BookingManagement.js:102-105 | the name of the first guest with the id, else `Unknown` |
| BookingView.RoomNumber | frontend/src/components/BookingManagement.js:107-110 | the number of the first room with the id, else `Unknown` |
| BookingView.StoredBookingNames | frontend/src/components/BookingManagement.js:102-110 | thanks to the foreign keys, every stored booking shows its guest's name and its room's number |
| BookingView.SubmitDisabled | frontend/src/components/BookingManagement.js:230 | the button is enabled exactly when there is a guest and an Available room |
| BookingView.WithField | frontend/src/components/BookingManagement.js:90-95 | `handleChange` sets the named field and keeps the others |
| BookingView.PayloadAsWritten | frontend/src/components/BookingManagement.js:63-67 | as written, the form is spread, so the check-out text is posted as it is, even when empty |
| BookingView.EmptyCheckOutRefused | frontend/src/components/BookingManagement.js:63-67 | as written, a form with no check-out date is refused with 422 |
| BookingView.Payload | frontend/src/components/BookingManagement.js:63-67 | corrected: the ids through `parseInt`, an empty check-out sent as null |
| BookingView.SelectedFormValidates | frontend/src/components/BookingManagement.js:63-67 | the corrected body of a filled form, with or without a check-out date, is accepted as the booking chosen |
| BookingView.Reload | frontend/src/components/BookingManagement.js:44-49 | success replaces the three lists and clears the error; failure keeps them and sets the message |
| BookingView.BookingManagement.constructor | frontend/src/components/BookingManagement.js:7-19 | no data, loading, form closed and empty with the status Active |
| BookingView.BookingManagement.ActiveBookings | frontend/src/components/BookingManagement.js:116 | the Active card is at most the number of bookings |
| BookingView.BookingManagement.FetchData | frontend/src/components/BookingManagement.js:25-53 | the lists and error become the result of loading; loading ends |
| BookingView.BookingManagement.ToggleForm | frontend/src/components/BookingManagement.js:124 | only `showForm` flips |
| BookingView.BookingManagement.HandleChange | frontend/src/components/BookingManagement.js:90-95 | only the form changes |
| BookingView.BookingManagement.HandleSubmit | frontend/src/components/BookingManagement.js:55-88 | posts the form as written (an empty check-out posted as the empty string); on creation: reload, close, reset to empty fields and Active; otherwise nothing changes and the alert names the error |
| RoomView.CountWithStatus | frontend/src/components/RoomManagement.js:82-84 | a status count is at most the number of rooms |
| RoomView.StatusCounts | frontend/src/components/RoomManagement.js:82-84 | Available + Occupied + Maintenance ≤ total, with equality exactly when every status is an enum value |
| RoomView.ServedStatusCounts | frontend/src/components/RoomManagement.js:82-84 | for the rooms the backend serves, the three cards add up to the Total card |
| RoomView.BadgeClass | frontend/src/components/RoomManagement.js:74-77 | the badge class is the status lower-cased, with its first space, and only that one, turned into `-` |
| RoomView.BadgeClasses | frontend/src/components/RoomManagement.js:75 | the classes are `available`, `occupied` and `maintenance` |
| RoomView.RoomTypesFit | frontend/src/components/RoomManagement.js:141-146 | every room-type option is non-empty and fits `room_type VARCHAR(50)` |
| RoomView.LoadRooms | frontend/src/components/RoomManagement.js:22-35 | the rows on success; `HTTP <status>` for a status outside 2xx; the error's own message otherwise |
| RoomView.NotOkShown | frontend/src/components/RoomManagement.js:26 | a status outside 2xx always shows the error screen, never with `Failed to fetch data` |
| RoomView.WithField | frontend/src/components/RoomManagement.js:67-72 | `handleChange` sets the named field and keeps the others |
| RoomView.Payload | frontend/src/components/RoomManagement.js:45 | the form is posted as it is, with the rent as text |
| RoomView.TypedFormValidates | frontend/src/components/RoomManagement.js:45 | a form with a positive rent typed in digits is accepted as the room typed |
| RoomView.RentRead | backend/app/main.py:202 | a rent in digits is accepted exactly when it is not zero |
| RoomView.ValidateRoomOf | backend/app/main.py:199-203 | a body with the four fields readable is accepted as the room they give |
| RoomView.ZeroOrEmptyRentRefused | frontend/src/components/RoomManagement.js:153-160 | the rent input allows `0` and an empty input, and both are refused with 422 |
| RoomView.RoomManagement.constructor | frontend/src/components/RoomManagement.js:7-16 | no rooms, loading, form closed and empty with Available |
| RoomView.RoomManagement.FetchRooms | frontend/src/components/RoomManagement.js:22-35 | the rows and error become the result of loading; loading ends; the form is kept |
| RoomView.RoomManagement.ToggleForm | frontend/src/components/RoomManagement.js:92 | only `showForm` flips |
| RoomView.RoomManagement.HandleChange | frontend/src/components/RoomManagement.js:67-72 | only the form changes |
| RoomView.RoomManagement.HandleSubmit | frontend/src/components/RoomManagement.js:37-65 | on creation: reload, close, reset to Available; otherwise nothing changes and the alert names the error |
| PaymentView.ActiveBookings | frontend/src/components/PaymentManagement.js:168 | exactly the bookings whose status is Active, in list order |
| PaymentView.OrUnknown | frontend/src/components/PaymentManagement.js:108 | the `'Unknown'` fallback: a missing or empty text gives `Unknown`, any other text itself |
| PaymentView.GuestPart | frontend/src/components/PaymentManagement.js:105-108 | the first matching guest's name, else `Unknown`, also for an empty name |
| PaymentView.RoomPart | frontend/src/components/PaymentManagement.js:106-108 | the first matching room's number, else `Unknown`, also for an empty number |
| PaymentView.BookingLabel | frontend/src/components/PaymentManagement.js:108 | the label is always longer than its ` - Room ` separator |
| PaymentView.BookingInfo | frontend/src/components/PaymentManagement.js:101-109 | `Unknown` for a missing booking, otherwise the label of the first booking with the id |
| PaymentView.InfoUnknownIff | frontend/src/components/PaymentManagement.js:101-109 | the bare `Unknown` is shown exactly when the booking is missing |
| PaymentView.OptionText | frontend/src/components/PaymentManagement.js:173 | each option starts with `Booking #id - ` |
| PaymentView.OptionPostsBooking | frontend/src/components/PaymentManagement.js:172 | choosing an option posts its booking's id |
| PaymentView.AmountOf | frontend/src/components/PaymentManagement.js:112 | a missing or empty amount counts as 0; any other is read by `parseFloat` |
| PaymentView.AddNumbers | frontend/src/components/PaymentManagement.js:112 | `+` on numbers: NaN exactly when either side is NaN |
| PaymentView.SumNumbers | frontend/src/components/PaymentManagement.js:112 | the sum is NaN exactly when some term is, and non-negative when every term is |
| PaymentView.SumAppend | frontend/src/components/PaymentManagement.js:112 | the sum of two runs put together is the sum of their sums |
| PaymentView.SumSnoc | frontend/src/components/PaymentManagement.js:112 | one more term adds itself to the sum |
| PaymentView.TotalPayments | frontend/src/components/PaymentManagement.js:111-113 | the total is NaN exactly when some amount is unreadable, and non-negative when all amounts are |
| PaymentView.TotalAppend | frontend/src/components/PaymentManagement.js:111-113 | the total of two histories together is the sum of their totals |
| PaymentView.TotalRecorded | frontend/src/components/PaymentManagement.js:111-113 | recording a payment raises the total by its amount |
| PaymentView.ThisMonthCount | frontend/src/components/PaymentManagement.js:144-149 | the this-month count is at most the number of payments |
| PaymentView.ThisMonthRecorded | frontend/src/components/PaymentManagement.js:144-149 | a payment dated today adds one to the count; one outside the month adds none |
| PaymentView.EmptyForm | frontend/src/components/PaymentManagement.js:14-20 | the empty form: no booking, amount or remarks, today's date, `Cash` |
| PaymentView.WithField | frontend/src/components/PaymentManagement.js:94-99 | `handleChange` sets the named field and keeps the others |
| PaymentView.Payload | frontend/src/components/PaymentManagement.js:67-71 | the posted body has exactly the five fields, the remarks as typed |
| PaymentView.FilledFormValidates | frontend/src/components/PaymentManagement.js:67-71 | a form with a chosen booking, a positive amount, a date and a method is accepted as that payment |
| PaymentView.UnpayableFormRefused | frontend/src/components/PaymentManagement.js:180-190 | no booking chosen, or an amount that is NaN, 0 or negative, is refused with 422 |
| PaymentView.UnpayableJson | frontend/src/components/PaymentManagement.js:69-70 | an unreadable id or amount is posted as null, a non-positive amount as that number |
| PaymentView.PaymentRefusedOf | backend/app/main.py:235-236 | a null booking id, a null amount or a non-positive amount is 422 |
| PaymentView.EmptyTextIsNaN | frontend/src/components/PaymentManagement.js:69-70 | the untouched selector and amount read as NaN |
| PaymentView.Reload | frontend/src/components/PaymentManagement.js:47-53 | success replaces the four lists and clears the error; failure keeps them and sets the message |
| PaymentView.PaymentManagement.constructor | frontend/src/components/PaymentManagement.js:7-20 | no data, loading, form closed and empty with today and `Cash` |
| PaymentView.PaymentManagement.TotalAmount | frontend/src/components/PaymentManagement.js:111-113 | the Total Amount card is NaN exactly when some amount is unreadable |
| PaymentView.PaymentManagement.ThisMonth | frontend/src/components/PaymentManagement.js:144-149 | the This Month card is at most the number of payments |
| PaymentView.PaymentManagement.FetchData | frontend/src/components/PaymentManagement.js:26-57 | the lists and error become the result of loading four lists; loading ends |
| PaymentView.PaymentManagement.ToggleForm | frontend/src/components/PaymentManagement.js:126 | only `showForm` flips |
| PaymentView.PaymentManagement.HandleChange | frontend/src/components/PaymentManagement.js:94-99 | only the form changes |
| PaymentView.PaymentManagement.HandleSubmit | frontend/src/components/PaymentManagement.js:59-92 | on creation: reload, close, reset to today and `Cash`; otherwise nothing changes and the alert names the error |
| DashboardView.StatsOf | frontend/src/components/Dashboard.js:21-48 | stats exist exactly when every reply is readable and rooms and bookings are lists; each stat is the length of its list or filtered list |
| DashboardView.ComputeStats | frontend/src/components/Dashboard.js:35-42 | available + occupied ≤ total rooms, active ≤ total bookings, and an Available room makes the available count positive |
| DashboardView.StatsConsistent | frontend/src/components/Dashboard.js:38-41 | every stats value the dashboard can set is consistent |
| DashboardView.OccupancyRate | frontend/src/components/Dashboard.js:52-54 | 0 without rooms, otherwise rate × total = occupied × 100, and within [0, 100] |
| DashboardView.RateIsPercentage | frontend/src/components/Dashboard.js:52-54 | for consistent stats the rate is within [0, 100] |
| DashboardView.BookedRoomCounted | backend/app/main.py:379 | a booking's room update moves one room from the Available count to the Occupied count |
| DashboardView.Dashboard.constructor | frontend/src/components/Dashboard.js:7-15 | all counts zero, loading |
| DashboardView.Dashboard.Rate | frontend/src/components/Dashboard.js:52-54 | the rate of consistent stats is a percentage |
| DashboardView.Dashboard.FetchDashboardData | frontend/src/components/Dashboard.js:21-48 | readable replies set the stats, a failure keeps them; loading ends either way |
| DashboardView.MountDashboard | frontend/src/components/Dashboard.js:17-19 | when loading on mount fails, every count stays zero and the rate is 0; the rate is always within [0, 100] |

## Left out

- I/O: the MySQL connection, `setup_database`, FastAPI routing, CORS and the startup event. The tables are modelled as values, and `created_at` is a parameter `now`.
- The `FOR UPDATE` row lock and concurrent requests: each endpoint runs alone, as one transaction.
- `backend/app/database.py`, `backend/test_db_conn.py`, `frontend/src/App.js` and `frontend/src/components/GuestManagement.js` are not part of this model.
- The Users table has no endpoint. Only its constraints are modelled.
- `fetch`, `Promise.all`, `alert`, `console.error` (in Dashboard.js) and rendering. Each fetch and post outcome is a parameter, and each alert is a returned string.
- `new Date()`: today's ISO text and the current calendar date are parameters. Time zones are not modelled: `new Date` of an ISO date is taken as that date.
- Locale formatting (`toLocaleString`, `toLocaleDateString`) and `toFixed(1)`.
- Floating point: every amount, sum and rate is an exact `real`, and NaN is `None`.
- DECIMAL values read back are in paise. The views' rows hold amounts and dates as the JSON text the backend sends; the serialisation itself is not modelled.
- Client.FailureOf: `Promise.all` rejects with the rejection that comes first in time. The model takes the first rejection in array order, because the timing of the fetches is not modelled. Client.All3Rejected states its case under the same reading.
- Backend.Database.CreateBooking: ids are unbounded here. A `guest_id` of 2^31 or more is out of range for MySQL's INT column, so the INSERT fails with 400 before an id is taken. The model treats it as an unknown guest, whose foreign-key failure also answers 400 but advances the booking counter. Ids that are only looked up by a SELECT are not found, here as in MySQL.
- Text.ToLower: lowers ASCII letters only, because Unicode case mapping is not modelled.
- Backend.Database.CreateGuest, Backend.Database.CreateRoom: the UNIQUE comparison ignores the case of ASCII letters only. The accent-insensitivity and Unicode case folding of MySQL 8's default collation `utf8mb4_0900_ai_ci` are not modelled, so `é` and `e` differ here. The collation and the `utf8mb4` character set are taken as the MySQL 8 defaults, since the DDL names neither.
- Text.ParseFloat: the text `Infinity` is read as NaN, because floating point is not modelled.
- Text.ParseDecimal: underscores between digits and non-ASCII digits, which Python's `Decimal` also accepts, are refused here. `Infinity` and `NaN` are refused, as pydantic refuses them.
- Schema.ReadPositiveDecimal: inherits the Text.ParseDecimal gaps above.
- Schema.IntText: underscores between digits (`1_000`), which pydantic-core accepts at least in texts of 19 characters or more, are refused here.
- Schema.ReadInt, Schema.ReadOptInt: inherit the Schema.IntText gap above. A JSON `true` or `false`, which pydantic's lax mode reads as 1 or 0, is not modelled, since `Schema.Json` has no booleans.
- Schema.ReadDate: a datetime text at midnight (`2024-01-05T00:00:00`) and a Unix timestamp, which pydantic's lax mode also accepts as a date, are refused here. The views post only `YYYY-MM-DD` texts.
- Schema.ReadOptDate: the same gaps as Schema.ReadDate.
- Schema.ValidateBooking, Schema.ValidatePayment, Schema.ValidateMaintenanceRequest, Schema.ValidateStatusQuery: inherit the gaps of the integer and date readers above.
- JSON booleans, arrays and objects are not modelled in `Schema.Json`. No view posts them, and pydantic refuses an array or an object for every field of the core.
- The browser's `required` and `min` checks on the inputs are not modelled. The lemmas show what the endpoint does with any value the inputs hold.
- Backend.Database.CreateGuest: a duplicate is 400 with every table unchanged, but the guest counter advances, because InnoDB consumes the id of a failed INSERT. The same holds for CreateRoom, CreateBooking and CreateMaintenanceRequest when their INSERT fails a key.
- BookingView.SelectedFormValidates: stated only for id and date texts that parse.
- PaymentView.FilledFormValidates: stated only for id and date texts that parse.
- RoomView.TypedFormValidates: stated only for whole rents typed in digits, not for fractional rents.
- DashboardView.StatsOf: the guests count of an object reply is `None`, which stands for `undefined`. What the card then renders is not modelled.
- PaymentView.BookingLabel: states only the label's length. The label's parts are stated by GuestPart and RoomPart.

## Findings

| source | as written | input that shows it | evidently intended | confidence | as-written member | corrected member |
|---|---|---|---|---|---|---|
| backend/app/main.py:379-384 | the new booking is read back with `cursor.lastrowid` after the UPDATE of Rooms, which generated no id, so the SELECT finds nothing and the response model fails with 500 after the booking is committed | any valid booking on an Available room | read the booking back with the id its INSERT generated, answering 201 with the new row | high; not executed | Backend.ReadBackAsWrittenFails | Backend.ReadBackInserted, Backend.Database.InsertBooking |
| frontend/src/components/BookingManagement.js:63-67 | the form is spread into the body, so an untouched check-out input posts `check_out_date: ""`, which is no date, and the endpoint answers 422 | a form with guest, room and check-in chosen and no check-out date | post null, or leave the field out, for an empty optional date | high; not executed | BookingView.PayloadAsWritten, BookingView.EmptyCheckOutRefused, BookingView.BookingManagement.HandleSubmit | BookingView.Payload, BookingView.SelectedFormValidates |
