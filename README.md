# Device command channel

This project models the channel through which GSM-connected machine controllers
(an ESP32 with a SIM800L modem) and the operator dashboard exchange commands and
reports. It has two parts:

- **The per-SIM message queue** (`MessageQueueService.MessageQueue`). It is an
  in-memory map from a SIM number to that SIM's pending commands, oldest first.
  Pushing a command appends it, then cuts the list back to its latest 20 entries.
  A device drains its list by polling.
- **The device controller** (`Esp32Controller`). It holds three handlers:
  - `receiveData` classifies an inbound report by its `cmd` tag and its
    `simNumber`. It then does one of three things:
    - queues a `cmd=get_status` or `cmd=dir_update&count=…&number<k>=…` command;
    - updates every machine record that shares the SIM, logging operation records
      for a JOB or for an untagged report with job data;
    - answers 400 when the SIM is missing.
  - `sendCommands` answers a poll. It either serialises the queued commands as
    `message<i>`/`timestamp<i>` pairs and empties the list, or answers
    `status=no_messages`.
  - `requestStatus` queues a status request for the SIM of a known machine.

How the model is built:

- The document store is a sequence of machine records plus the operation log,
  both in memory.
- `global.lastDataUpdateTime` is a field of the controller.
- The queue singleton is an object the controller holds.
- The clock and the library calls are fields of a `Runtime` value. These are
  `parseInt`, `parseFloat`, `encodeURIComponent`, `decodeURIComponent`, `JSON.parse`
  and the application/x-www-form-urlencoded serializer of the WHATWG URL Standard.
  Their results are left open, with two assumptions built into their types:
  `encodeURIComponent` always returns (it never throws), and `parseInt` gives an
  exact, unbounded integer or NaN (never a rounded double or Infinity). The
  directory-update loop counts with an unbounded integer too. "## Left out" says
  what this misses.

Files:

- `js.dfy`: JavaScript string truthiness, `trim`, `x || d`, and the decimal
  rendering of numbers in template literals.
- `models.dfy`: the machine and operation records, with the schema's defaults.
- `message_queue.dfy`: the bounded queue and its specification functions.
- `esp32_controller.dfy`: the protocol pieces and the `Controller` class.

Where the intended behaviour and the code differ, the model follows the code.
The poll answer is one example. A natural reading gives a first field of
`message1=cmd=get_status`. But `URLSearchParams` form-encodes each value, so the
`=` inside the command is escaped. The model therefore passes every name and
value through `formEncode`.

## Model

| member | source | states |
|---|---|---|
| Js.TrimEmptyIffBlank | src/controllers/esp32Controller.js:107 | `trim` leaves an empty string exactly when every character is ECMAScript white space |
| Js.NonBlankIffNotBlank | src/controllers/esp32Controller.js:107 | the filter's test `entry && entry.trim() !== ''` holds exactly when the entry has a non-white-space character |
| Js.DecimalInjective | src/controllers/esp32Controller.js:256-259 | distinct indices render as distinct decimal texts, so the `message<i>`/`timestamp<i>` field names never collide |
| MessageQueueService.AppendedSpec | src/services/messageQueue.js:20-29 | a push onto a list with room appends; a push onto a full list of 20 drops the oldest entry; either way the new entry is last |
| MessageQueueService.EnqueueAllKeepsLatest | src/services/messageQueue.js:25-29 | any run of pushes leaves exactly the latest 20 of (old list ++ pushed entries), in their original order |
| MessageQueueService.EnqueueFromEmpty | src/services/messageQueue.js:16-29 | pushes onto a SIM with no entry leave all of them if there were at most 20, else the last 20 |
| MessageQueueService.MessageQueue.constructor | src/services/messageQueue.js:3-5 | a new queue is empty |
| MessageQueueService.MessageQueue.AddMessage | src/services/messageQueue.js:8-32 | false and no change for an empty SIM; otherwise true, that SIM's list becomes the cut-back list with `{message, now}` last (a missing list counts as empty), and no other SIM's list changes; every list stays at most 20 long |
| MessageQueueService.MessageQueue.GetMessages | src/services/messageQueue.js:35-44 | the stored list for a known non-empty SIM, `[]` for an empty or unknown SIM; the map is not changed |
| MessageQueueService.MessageQueue.ClearMessages | src/services/messageQueue.js:47-60 | true exactly for a non-empty SIM that has an entry, whose list then becomes empty; otherwise false and no change |
| MessageQueueService.MessageQueue.HasMessages | src/services/messageQueue.js:63-72 | true exactly when the SIM is non-empty, has an entry, and that entry is non-empty |
| Models.NewMachine | src/models/Machine.js:4-15 | a new machine record is OFFLINE on both status fields, has sensor status and location "None", no last status update, and empty phone book and directory lists |
| Esp32Controller.Classify | src/controllers/esp32Controller.js:16-187 | each branch is taken exactly under its tag test with a present SIM, and the 400 branch exactly when the SIM is missing |
| Esp32Controller.SelectedSpec | src/controllers/esp32Controller.js:36-42 | the encoder visits exactly the k in 1..parseInt(count) whose `number<k>` is present, each once, ascending |
| Esp32Controller.FieldsUpToSelected | src/controllers/esp32Controller.js:37-42 | the loop's text after visiting 1..n is the `&number<k>=` fields of exactly the selected k, in order |
| Esp32Controller.DirUpdatePayload | src/controllers/esp32Controller.js:33 | every directory-update command starts with `cmd=dir_update&count=` followed by the raw count, or 0 when it is absent |
| Esp32Controller.BuildDirUpdate | src/controllers/esp32Controller.js:33-42 | the encoder loop yields the header followed by the encoded present numbers among 1..count, ascending |
| Esp32Controller.DirUpdateCountMismatch | src/controllers/esp32Controller.js:33-42 | the count is not recomputed: count 3 with only numbers 1 and 2 gives exactly `cmd=dir_update&count=3&number1=<enc n1>&number2=<enc n2>` |
| Esp32Controller.DropBlankSpec | src/controllers/esp32Controller.js:107 | the filter throws exactly when some entry is a truthy non-string; otherwise the strings it keeps are exactly the non-blank string entries, and it never lengthens the list |
| Esp32Controller.DropBlankSingle | src/controllers/esp32Controller.js:107 | on one entry the filter drops a falsy value or a blank string, keeps a non-blank string, and throws on any other value |
| Esp32Controller.DropBlankConcat | src/controllers/esp32Controller.js:107 | filtering a concatenation filters each part and joins the results in order, and throws when either part does; with `DropBlankSingle` this fixes the filter's output, order included |
| Esp32Controller.NonBlankOnlySpec | src/controllers/esp32Controller.js:107 | the reference filter over strings keeps exactly the non-blank strings and never lengthens the list |
| Esp32Controller.DropBlankStrings | src/controllers/esp32Controller.js:107 | on an array of strings the filter is the reference filter: the same list with blank entries removed, order kept |
| Esp32Controller.DropBlankIdempotent | src/controllers/esp32Controller.js:107 | a phone book of non-blank entries passes the filter unchanged |
| Esp32Controller.PhoneBookUpdate | src/controllers/esp32Controller.js:74-113 | no phone book gives no update; a given phone book is updated exactly when no entry is a truthy non-string (otherwise the throw is caught and nothing is written); an update holds only non-blank entries |
| Esp32Controller.PhoneBookArray | src/controllers/esp32Controller.js:81-110 | an array of strings is stored as the same list with its blank entries removed, order kept |
| Esp32Controller.PhoneBookFallback | src/controllers/esp32Controller.js:84-103 | a text that fails to decode, fails to parse or parses to a non-array becomes `[raw]`, which is dropped when blank |
| Esp32Controller.PhoneBookEncodedArray | src/controllers/esp32Controller.js:85-107 | a percent-encoded JSON array of strings is stored as the same list with its blank entries removed, order kept |
| Esp32Controller.ApplySpec | src/controllers/esp32Controller.js:64-71 | one record update keeps identity and configuration fields and marks the record ONLINE at the report's time; an absent report field keeps the record's value; a JOB sets status ONLINE |
| Esp32Controller.MatchIndicesSpec | src/controllers/esp32Controller.js:59 | `find({ simNumber })` yields exactly the positions of the records with that SIM, each once, in store order |
| Esp32Controller.FirstMatch | src/controllers/esp32Controller.js:195-217 | the first record the loop finds with the SIM is the first matched position |
| Esp32Controller.FanOutSpec | src/controllers/esp32Controller.js:63-117 | the fan-out updates exactly the matched records and leaves every other record as it was |
| Esp32Controller.FanOutIdempotent | src/controllers/esp32Controller.js:63-117 | the fan-out keeps the set of matching records, and the same update (time included) applied twice leaves the store as one application did |
| Esp32Controller.JobTemplate | src/controllers/esp32Controller.js:146-153 | a JOB's operation is dated now; each number is its parsed value, or 0 when absent or NaN; the location is the given one, or "Unknown" when absent |
| Esp32Controller.GenericTemplate | src/controllers/esp32Controller.js:209-215 | an untagged report's operation exists exactly when all three numbers parse; it carries them unchanged, is dated now (the schema default), and has the given location or "Unknown" |
| Esp32Controller.LoggedUpToMatches | src/controllers/esp32Controller.js:144-157 | the insert loop logs one operation per matched record, in match order |
| Esp32Controller.JobLogsOnePerMachine | src/controllers/esp32Controller.js:140-157 | with k matched records there are exactly k operations; the j-th belongs to the j-th match, and each matched record has one, dated now with a non-empty location |
| Esp32Controller.PollSim | src/controllers/esp32Controller.js:244 | a missing poll SIM becomes "default"; a given one is kept |
| Esp32Controller.MessagePairsSpec | src/controllers/esp32Controller.js:256-259 | the poll carries two fields per queued command, `message<i>` then `timestamp<i>`, for i = 1..n in queue order |
| Esp32Controller.AppendMessagePairs | src/controllers/esp32Controller.js:253-259 | the `formData.append` loop yields exactly those pairs |
| Esp32Controller.FindById | src/controllers/esp32Controller.js:282 | no result exactly when no record has the identifier; otherwise a stored record with that identifier |
| Esp32Controller.ReportStep | src/controllers/esp32Controller.js:196-218 | one pass of the untagged report's loop updates the visited record and logs its operation, exactly when it matches |
| Esp32Controller.Controller.constructor | src/server.js:21-22 | the process starts with the freshness marker at the start time, the given store, and an empty queue (the singleton made at line 76 of src/services/messageQueue.js) |
| Esp32Controller.Controller.UpdateMatches | src/controllers/esp32Controller.js:63-117 | the update loop leaves the store as the fan-out, and the log and freshness marker unchanged |
| Esp32Controller.Controller.LogMatches | src/controllers/esp32Controller.js:144-157 | the insert loop appends one operation per matched record in match order, and nothing else changes |
| Esp32Controller.Controller.HandleStatusUpdate | src/controllers/esp32Controller.js:57-127 | 404 and no change when no record has the SIM; else every matched record is updated with the report, the freshness marker is set and the answer is 200 |
| Esp32Controller.Controller.HandleJob | src/controllers/esp32Controller.js:138-177 | 404 and no change when no record has the SIM; else one operation per matched record with the JOB defaults, every matched record ONLINE, the freshness marker set, 200 |
| Esp32Controller.Controller.UpdateAndLogMatches | src/controllers/esp32Controller.js:195-219 | every matched record is updated and gets one operation, in match order |
| Esp32Controller.Controller.UpdateFirstMatchThenFail | src/controllers/esp32Controller.js:195-217 | only the first matched record is updated before the failing insert; the log is unchanged |
| Esp32Controller.Controller.HandleReport | src/controllers/esp32Controller.js:189-233 | an unknown SIM gets 200 and no change; without job data all matches are updated; with parseable job data all matches are updated and logged; with an unparseable number the answer is 500 after the first match was updated |
| Esp32Controller.Controller.ReceiveData | src/controllers/esp32Controller.js:6-234 | per branch: get_status and dir_update queue their command for the SIM and set the freshness marker; a missing SIM gives 400 with no change; the other branches give their 404/200/500 outcomes and leave the queue alone |
| Esp32Controller.Controller.SendCommands | src/controllers/esp32Controller.js:237-274 | with pending commands, the answer is their serialised `message<i>`/`timestamp<i>` pairs and the SIM's list is emptied; otherwise `status=no_messages` and no change |
| Esp32Controller.Controller.RequestStatus | src/controllers/esp32Controller.js:277-297 | 404 for an unknown machine, 400 for a machine without a SIM, else `cmd=get_status` is queued for its SIM and the answer is 200 |
| Esp32Controller.StatusRequestThenTwoPolls | src/controllers/esp32Controller.js:16-26 | after a get_status report, the first poll answers the serialised pairs of the SIM's list with the status request last (`message<n>` = `cmd=get_status`, `timestamp<n>` = now); a second poll answers `status=no_messages` and the list is empty |

## Left out

- Logging (`console.log`, `console.error`) is not modelled; it has no effect on state or answers.
- The clock is an input. Each request reads one `now`, where the source reads the clock several times.
- `parseInt`, `parseFloat`, `encodeURIComponent`, `decodeURIComponent`, `JSON.parse` and form serialisation are uninterpreted functions. No claim depends on their internals beyond their types: `encodeURIComponent` returns a string, and `parseInt`/`parseFloat` return an exact finite number or NaN. The one fixed result is that `parseInt`/`parseFloat` of an absent field is NaN.
- Esp32Controller.BuildDirUpdate: the model always builds the payload and `ReceiveData` always queues it and answers 200. Two source behaviours fall outside this. First, `encodeURIComponent` throws a URIError on a lone surrogate, which a JSON body can carry in a `number<k>` field. The dir_update branch (lines 29-51) has no try, so the request is rejected before line 45: nothing is queued, the freshness marker is not set and no 200 is sent. Dafny strings cannot hold a lone surrogate, so this input is not representable. Second, a `count` whose value is 2^53 (9007199254740992) or more makes the loop at line 37 never end. The counter `i` is a double, so at 2^53 `i++` rounds back to 2^53 and `i <= numCount` stays true. From about 1.8e308 `parseInt` gives Infinity, and `Infinity || 0` stays Infinity, with the same effect. The handler then hangs. The model's count and counter are unbounded integers, so its loop always ends after `numCount` passes.
- Request fields other than `phoneBook` are strings. An absent field is "" because both are falsy. Non-string JSON values in other fields are not modelled.
- Floating-point details (Infinity, -0, rounding) are not modelled: numbers are `real` and `int`.
- Store failures other than the NaN cast in the untagged branch are not modelled. That leaves out the 500 answers of STATUS_UPDATE (line 130), JOB (line 180) and `requestStatus` (line 300), such as a malformed machine identifier or a lost connection.
- Esp32Controller.Controller.ReceiveData: for an untagged report with matches, the contract only gives which of 200 and 500 is answered; the full effect is stated by `HandleReport`.
- Concurrent requests are not modelled; each handler runs as one sequential step.
- Aliasing of the array `getMessages` returns is not modelled, because the model returns a value. The poll drains the list before anyone else can push, so it cannot be observed here.
- Record identifiers are assumed unique, as the store guarantees. The fan-out works by position in store order.
- `Machine.find({ simNumber })` (lines 59, 140 and 191) is modelled as returning the matching records in store order. The store itself promises no order without a sort. So the order of the operation records that `LogMatches`, `HandleJob` and `HandleReport` state is the order for one particular result order. The set of records updated and logged does not depend on it.
- `phoneBook` is either a text or an array (`PhoneBookField`). A JSON number or object, or the object the extended form parser builds when an index passes its array limit, cannot be represented. In the source such a value reaches the filter as a truthy non-string, `trim` throws, and the throw is caught at line 111, so the phone book is left unchanged. The model shows the same outcome only for an array holding such a value (`JOther`).
- The untagged loop is split by whether job data is given and parses, into three one-purpose loops; each performs the same writes in the same order as the source's single loop.
- Express response details (the charset header, `res.set`) are reduced to a content type and a body.
- Express, MongoDB connection and routing, the Mongoose schemas beyond their field names and defaults, and the machine, operation and user controllers are not part of this model.
