# Bills: records, access rules and participant membership

This project models the bills part of the bill-split backend. A bill is a
document owned by one user, with a title, an optional description, a total
amount, an optional due date and a list of participant user ids. Six HTTP
handlers read and change the bills collection:

- `list_bills` lists the bills the caller owns or takes part in.
- `get_bill` returns one bill to its owner or to a participant.
- `create_bill` stores a new bill owned by the caller.
- `update_bill` lets the owner change the fields they send.
- `delete_bill` lets the owner remove a bill.
- `add_participant` lets the owner add registered users to a bill, all of them or none.

Modules, one per source file or concept:

- `Results` (`results.dfy`): `Option` and `Result`.
- `ObjectIds` (`object_id.dfy`): bson ObjectIds. An ObjectId is twelve bytes; its canonical text is 24 hexadecimal digits. Parsing accepts either letter case and printing gives lower case.
- `BillModel` (`bill_model.dfy`): the `Bills` record (`app/models/bills.py`). It has a validity predicate for the field constraints, and `NewBill` builds a record, applying the declared defaults.
- `BillDto` (`bill_dto.dfy`): the payloads of `app/dto/bills.py`. `BillIn` is the create body. `BillUpdate` is the update body; each of its fields is `Unset`, `Null` or `Given(v)`, because a field left out and a field sent as `null` are dumped differently. `BillOut` is the response projection.
- `ParticipantSets` (`participant_sets.dfy`): the set reasoning of `add_participant`. It counts how many registered users a request names and forms the duplicate-free union of two participant lists.
- `BillsRouter` (`bills_router.dfy`): `app/controllers/bills_router.py`. The pure checks are functions. The handlers are methods of the class `BillService`, whose fields are the bills collection (a map from document id to record) and the set of registered user ids. The class invariant `Valid()` says every stored bill satisfies the `Bills` constraints; every handler preserves it.
- `BillUpdateAsWritten` (`bill_update_as_written.dfy`): the update handler as coded, on stored documents whose fields may hold `null` (see Findings).
- `BillScenarios` (`bill_scenarios.dfy`): a client that uses only the handlers' contracts.

How the handlers are represented:

- The caller is the text of the authenticated subject. Every handler first parses it as an ObjectId (400 "Invalid identifier").
- A request body that breaks a field constraint is refused with 422 before the handler body runs. So in `create_bill` and `update_bill`, 422 comes before the 400.
- Clock readings and the id the database assigns to a new document are parameters.

## Model

| member | source | states |
|---|---|---|
| `ObjectIds.Parse` | app/controllers/bills_router.py:19-22 | a text denotes an ObjectId exactly when it is in the canonical form the model takes for `ObjectId.is_valid`: 24 hexadecimal digits, either case, naming 12 bytes |
| `ObjectIds.ParseText` | app/controllers/bills_router.py:19-22 | printing an ObjectId and parsing the text gives the same ObjectId back |
| `ObjectIds.TextParse` | app/controllers/bills_router.py:19-22 | parsing a valid id text and printing the result gives the text in lower case |
| `ObjectIds.SameObjectId` | app/controllers/bills_router.py:19-22 | two valid caller texts name the same user exactly when they differ at most in letter case, so owner comparisons ignore case |
| `ObjectIds.FromHexToHex` | app/controllers/bills_router.py:19-22 | decoding the hexadecimal text of any byte sequence gives the bytes back |
| `ObjectIds.ToHexFromHex` | app/controllers/bills_router.py:19-22 | encoding the bytes of a hexadecimal text gives the text in lower case |
| `BillsRouter.ParseObjectId` | app/controllers/bills_router.py:19-22 | `_parse_object_id` succeeds exactly on valid ObjectId texts, yielding the id the text names; otherwise it fails with 400 "Invalid identifier" |
| `BillsRouter.EnsureBillAccess` | app/controllers/bills_router.py:25-27 | a caller may read a bill exactly when they are its owner or in its participant list; otherwise 403 |
| `BillsRouter.ListQueryIsAccess` | app/controllers/bills_router.py:38-45 | the `$or` query of `list_bills` selects exactly the bills that pass `_ensure_bill_access` |
| `BillsRouter.BillService.ListBills` | app/controllers/bills_router.py:36-46 | 400 for an invalid caller id; otherwise the response holds a bill exactly when it is stored and readable by the caller, and shows it as stored |
| `BillsRouter.BillService.GetBill` | app/controllers/bills_router.py:55-61 | checks run in the order 400 (caller id), 404 (no such bill), 403 (neither owner nor participant); success exactly when all pass, with the stored bill |
| `BillModel.NewBill` | app/models/bills.py:9-17 | a record is built exactly when the title has 1 to 255 characters, the description is absent or at most 1024, and the total is non-negative; the result is valid, carries the given fields, and both timestamps are the construction instant |
| `BillModel.NewBillDefaults` | app/models/bills.py:12-17 | fields not given default to no description, no due date and an empty participant list, and both timestamps to the construction instant |
| `BillsRouter.NewBillFrom` | app/controllers/bills_router.py:71-72 | a create payload makes a record exactly when it satisfies its constraints (the same bounds as the record); the owner is the caller and every other field comes from the payload |
| `BillsRouter.BillService.CreateBill` | app/controllers/bills_router.py:70-74 | 422 for a payload breaking its constraints, then 400 for an invalid caller id; otherwise exactly one new bill is stored under the new id, owned by the caller, with the payload's fields and both timestamps at the current instant; it is returned as stored |
| `BillsRouter.ApplyUpdate` | app/controllers/bills_router.py:91-94 | a field left out stays as it was; a field sent takes the value sent, and `null` clears the description or due date; the owner and creation time never change; `updated_at` is stamped only when some field was sent; an empty patch changes nothing; validity is preserved |
| `BillsRouter.ApplyUpdateIdempotent` | app/controllers/bills_router.py:91-94 | sending the same patch twice at the same instant gives the bill that sending it once gives |
| `BillsRouter.BillService.UpdateBill` | app/controllers/bills_router.py:83-96 | checks run in the order 422, 400, 404, 403 (caller not the owner, so a mere participant is refused); on success only that bill changes, to the patched bill, with no check of the participant ids sent; on failure nothing changes |
| `BillsRouter.BillService.DeleteBill` | app/controllers/bills_router.py:105-114 | checks run in the order 400, 404, 403 (owner only); on success the bill is removed, nothing else changes, and the removed bill is returned |
| `ParticipantSets.RegisteredCountMatches` | app/controllers/bills_router.py:130-134 | the number of registered users found equals the number of ids requested exactly when every requested id is registered and none is requested twice |
| `ParticipantSets.ElementsCount` | app/controllers/bills_router.py:133 | a list has at most as many distinct ids as entries, and exactly as many when it has no repeats |
| `ParticipantSets.SubsetCount` | app/controllers/bills_router.py:130-133 | a subset of the ids is no larger, and is the whole set when it has the same size |
| `ParticipantSets.Dedup` | app/controllers/bills_router.py:142 | `list(set(...))` keeps every id of the list, each exactly once |
| `ParticipantSets.MergeParticipants` | app/controllers/bills_router.py:142-143 | the new participant list holds exactly the old and the requested ids, without repeats |
| `ParticipantSets.MergeGrowsByRequest` | app/controllers/bills_router.py:135-142 | once the request is duplicate-free and disjoint from the bill, the merged list has as many entries as the bill's distinct participants plus the ids requested; repeats already in the bill are dropped |
| `BillsRouter.BillService.AddParticipant` | app/controllers/bills_router.py:121-145 | checks run in the order 400, 404, 403 (owner only), 400 (an id unregistered or requested twice), 400 listing the ids already in the bill; on success only the participant list of that bill changes, to the duplicate-free union, `updated_at` included among what stays, so repeats already in the bill are removed even when the request is empty; on failure nothing changes |
| `BillModel.Bill.Valid` | app/models/bills.py:10-13 | a record is valid when its title has 1 to 255 characters, its description is absent or at most 1024 characters, and its total is non-negative; the owner is required by the field's type |
| `BillDto.BillIn.Valid` | app/dto/bills.py:9-13 | a create payload obeys the same bounds as the record: title 1 to 255 characters, description absent or at most 1024, total non-negative |
| `BillDto.BillUpdate.AcceptedAsDeclared` | app/dto/bills.py:17-21 | an update payload as declared: every field may be left out or sent as `null`, and a value that is sent obeys the bound of the matching record field |
| `BillDto.BillUpdate.Valid` | app/dto/bills.py:17-21 | an update payload as intended: accepted as declared, and with no `null` for title, total amount or participants |
| `BillsRouter.Failure.Status` | app/controllers/bills_router.py:21 | every error answer is a client error (4xx), and 403 is given exactly for the refusals of a caller without the right to the bill (lines 27, 89, 111, 129) |
| `BillsRouter.Failure.Detail` | app/controllers/bills_router.py:21-139 | maps each failure to the source's `detail` text: "Invalid identifier", "Bill not found", "Not authorized to access this bill", the three "Only owner can …" texts, "One or more participant IDs are invalid" and the fixed prefix of the already-in-bill text |
| `BillsRouter.DetailIdentifiesFailure` | app/controllers/bills_router.py:21-139 | two failures carry the same detail text exactly when they are the same failure, or both are already-in-bill refusals (whose ids follow the fixed text) |
| `BillDto.ToOut` | app/dto/bills.py:24-31 | the response carries the bill's id, its owner and its participants, and every other field but the timestamps |
| `BillDto.ToOutForgetsTimestamps` | app/dto/bills.py:24-31 | two stored bills give the same response exactly when they differ at most in their timestamps: the response shows every other field |
| `BillUpdateAsWritten.Load` | app/models/bills.py:9-17 | a stored document is read back as a record exactly when it satisfies the record's constraints, and then it is that record's document |
| `BillUpdateAsWritten.UpdateStoredAsWritten` | app/controllers/bills_router.py:91-94 | the update as coded on the stored document: every sent field is written, for all five fields a sent value as itself and `null` as absent, also for title, total amount and participants; unsent fields, owner and creation time stay; `updated_at` is stamped exactly when some field was sent |
| `BillUpdateAsWritten.StoredBillStaysRecordIffValid` | app/controllers/bills_router.py:91-94 | under the update as coded, a patch the declared constraints accept leaves a valid stored bill exactly when it sends no `null` for title, total amount or participants |
| `BillUpdateAsWritten.NullTitleIsWritten` | app/dto/bills.py:17 | a patch of only `"title": null` is accepted as declared, and the update as coded writes a stored bill without a title |
| `BillUpdateAsWritten.CorrectedUpdateAgrees` | app/controllers/bills_router.py:91-94 | on the patches the corrected validity admits, the write as coded stores exactly the bill `ApplyUpdate` gives |
| `BillScenarios.ParticipantReadsButCannotChange` | app/controllers/bills_router.py:121-145 | after the owner adds a registered user to a new bill, that user can read it but gets 403 on update and on delete |

## Left out

- Bill splitting (per-item, equal and manual policies), tax, per-user shares and debtor/creditor balances are not modelled. The `Bills` document (app/models/bills.py:9-17) has no items, tax, payer or shares, and no handler computes them, so no code implements them.
- Authentication (`get_current_user`, JWT decoding, the 401 answers) and password hashing are not modelled. These are foreign-library calls; the caller is the subject text they yield.
- `ObjectId.is_valid` and the ObjectId type belong to the bson library, which is not part of this model. The model takes the canonical form of a text id: 24 hexadecimal digits, either case, naming 12 bytes. Texts of 24 characters that bson also accepts, with whitespace between digit pairs, are not modelled.
- The `bill_id` path parameter is handed to the store library as text, and that library converts it. Its handling of a malformed bill id is not part of this model; handlers take the bill id as an ObjectId.
- The request body of `add_participant` (`BillParticipantUpdateIn`) is imported from app/dto/bills.py but not declared in it. It is modelled as the list of requested ObjectIds.
- Asynchronous execution, database round trips and concurrent requests are not modelled. Each handler is one sequential step on the in-memory collections.
- The id the database assigns on insert is a parameter, assumed fresh.
- The clock is a parameter. Where the source reads it twice, for `created_at` and for `updated_at` at construction, the model uses one instant.
- `total_amount` is a float in the source and a `real` here. No arithmetic is done on it; the model admits neither infinity nor NaN.
- The `message` strings of the response wrapper and the body of a 422 answer are not modelled.
- BillsRouter.BillService.ListBills: returns a set of responses, because the order in which the store returns documents is not specified.
- BillsRouter.BillService.AddParticipant: states the new participant list as a set without repeats, not as a sequence, because `list(set(...))` takes Python's set iteration order. `ParticipantSets.Dedup` fixes one order (first occurrences) only to have a value.
- BillsRouter.Failure.Detail: for `AlreadyInBill` gives only the fixed text; the ids follow it in set iteration order, and the error carries them as a set.
- BillsRouter.BillService.UpdateBill: refuses with 422 a patch that sends `null` for title, total amount or participants, which the source accepts and writes (see Findings).

## Findings

| source | as written | input that shows it | evidently intended | confidence | as-written member | corrected member |
|---|---|---|---|---|---|---|
| app/dto/bills.py:17-21, app/controllers/bills_router.py:91-94 | every `BillUpdate` field is `Optional` with default `None`, so an explicit `null` passes validation; `model_dump(exclude_unset=True)` keeps it, and `bill.set` writes it into the stored bill, also for the title, total amount and participant list that `Bills` requires | the owner sends `PUT /bills/{id}` with body `{"title": null}` | `null` is refused for the fields the record requires, so a stored bill always satisfies the `Bills` constraints | medium, not executed | `BillUpdateAsWritten.NullTitleIsWritten` | `BillsRouter.ApplyUpdate` |

With the corrected validity (`BillDto.BillUpdate.Valid`), `BillUpdateAsWritten.CorrectedUpdateAgrees` shows that the write as coded and `BillsRouter.ApplyUpdate` agree. `BillsRouter.ApplyUpdate` keeps every stored bill valid. `BillUpdateAsWritten.StoredBillStaysRecordIffValid` shows that the corrected validity admits exactly the accepted patches that keep the stored bill valid.
