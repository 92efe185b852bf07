/**
  The `/bills` endpoints. The bills collection is a map from document id to
  record and the users collection is the set of registered ids; each
  handler is one sequential step on them. The caller is the authenticated
  subject text, which every handler first parses as an ObjectId.
*/
module BillsRouter {
  import opened Results
  import opened ObjectIds
  import opened BillModel
  import opened BillDto
  import opened ParticipantSets

  /** The mutating endpoints that only the owner may call. */
  datatype Action = Update | Delete | AddParticipants

  /** The errors the endpoints answer with. */
  datatype Failure =
    | InvalidPayload                     // the request body broke a field constraint
    | InvalidIdentifier                  // the caller's id is not an ObjectId
    | BillNotFound
    | NotAuthorizedToAccess              // neither owner nor participant
    | OnlyOwner(action: Action)          // a mutation by someone other than the owner
    | InvalidParticipantIds              // an id is unregistered or requested twice
    | AlreadyInBill(ids: set<ObjectId>)  // these requested ids are participants already
  {
    /** Every answer is a client error; 403 is exactly the refusals of a caller who lacks a right to the bill. */
    function Status(): (s: int)
      ensures 400 <= s < 500
      ensures s == 403 <==> NotAuthorizedToAccess? || OnlyOwner?
    {
      match this
      case InvalidPayload => 422
      case InvalidIdentifier => 400
      case BillNotFound => 404
      case NotAuthorizedToAccess => 403
      case OnlyOwner(_) => 403
      case InvalidParticipantIds => 400
      case AlreadyInBill(_) => 400
    }

    /** The detail text; for `AlreadyInBill` the ids that follow it are left out. */
    function Detail(): string
      requires !InvalidPayload?
    {
      match this
      case InvalidIdentifier => "Invalid identifier"
      case BillNotFound => "Bill not found"
      case NotAuthorizedToAccess => "Not authorized to access this bill"
      case OnlyOwner(Update) => "Only owner can update this bill"
      case OnlyOwner(Delete) => "Only owner can delete this bill"
      case OnlyOwner(AddParticipants) => "Only owner can add participants to this bill"
      case InvalidParticipantIds => "One or more participant IDs are invalid"
      case AlreadyInBill(_) => "There are one or more participants already in the bill: "
    }
  }

  /** A client can tell the failures apart by their detail text alone, except the ids listed after `AlreadyInBill`'s. */
  lemma DetailIdentifiesFailure(f: Failure, g: Failure)
    requires !f.InvalidPayload? && !g.InvalidPayload?
    ensures f.Detail() == g.Detail() <==> f == g || (f.AlreadyInBill? && g.AlreadyInBill?)
  {
  }

  /** `_parse_object_id`: the caller's ObjectId, or 400 "Invalid identifier". */
  function ParseObjectId(idText: string): (r: Result<ObjectId, Failure>)
    ensures r.Ok? <==> IsValid(idText)
    ensures r.Err? ==> r.error == InvalidIdentifier && r.error.Status() == 400
    ensures r.Ok? ==> Text(r.value) == LowerHex(idText)
  {
    if IsValid(idText) then
      TextParse(idText);
      Ok(Parse(idText).value)
    else
      Err(InvalidIdentifier)
  }

  /** `_ensure_bill_access`: the owner and the listed participants may read a bill; anyone else gets 403. */
  function EnsureBillAccess(b: Bill, userId: ObjectId): (r: Result<(), Failure>)
    ensures r.Ok? <==> b.ownerId == userId || userId in b.participants
    ensures r.Err? ==> r.error == NotAuthorizedToAccess && r.error.Status() == 403
  {
    if b.ownerId != userId && userId !in b.participants then Err(NotAuthorizedToAccess) else Ok(())
  }

  /**
    The store query of `list_bills`: `{"owner_id": user_id}` or
    `{"participants": user_id}`. An equality condition on an array field
    matches a document when any element of the array equals the value, so
    the second alternative selects the bills whose participant list
    contains the caller.
  */
  predicate MatchesListQuery(b: Bill, userId: ObjectId) {
    b.ownerId == userId || userId in b.participants
  }

  /** The bills `list_bills` selects are exactly the bills the caller may read one by one. */
  lemma ListQueryIsAccess(b: Bill, userId: ObjectId)
    ensures MatchesListQuery(b, userId) <==> EnsureBillAccess(b, userId).Ok?
  {
  }

  /** `Bills(owner_id=owner_id, **payload.model_dump())`: the caller becomes the owner. */
  function NewBillFrom(payload: BillIn, ownerId: ObjectId, now: Instant): (r: Result<Bill, ValidationError>)
    ensures r.Ok? <==> payload.Valid()
    ensures r.Ok? ==> r.value.Valid() && r.value.ownerId == ownerId && payload.CopiedInto(r.value)
    ensures r.Ok? ==> r.value.createdAt == now && r.value.updatedAt == now
  {
    NewBill(ownerId, payload.title, payload.totalAmount, now,
            description := payload.description, dueDate := payload.dueDate,
            participants := payload.participants)
  }

  /** A required field after a patch: the value sent, or the old one when nothing was sent. */
  function Written<T>(current: T, p: Patch<T>): T
    requires !p.Null?
  {
    if p.Given? then p.value else current
  }

  /** An optional field after a patch: `null` clears it. */
  function WrittenOptional<T>(current: Option<T>, p: Patch<T>): Option<T> {
    match p
    case Unset => current
    case Null => None
    case Given(v) => Some(v)
  }

  /**
    Lines 91-94 of `update_bill`: the fields the client sent are written,
    with `updated_at` stamped, and nothing at all happens for an empty patch.
  */
  function ApplyUpdate(b: Bill, u: BillUpdate, now: Instant): (r: Bill)
    requires u.Valid()
    ensures r.ownerId == b.ownerId && r.createdAt == b.createdAt
    ensures u.title.Unset? ==> r.title == b.title
    ensures u.title.Given? ==> r.title == u.title.value
    ensures u.description.Unset? ==> r.description == b.description
    ensures u.description.Null? ==> r.description == None
    ensures u.description.Given? ==> r.description == Some(u.description.value)
    ensures u.totalAmount.Unset? ==> r.totalAmount == b.totalAmount
    ensures u.totalAmount.Given? ==> r.totalAmount == u.totalAmount.value
    ensures u.dueDate.Unset? ==> r.dueDate == b.dueDate
    ensures u.dueDate.Null? ==> r.dueDate == None
    ensures u.dueDate.Given? ==> r.dueDate == Some(u.dueDate.value)
    ensures u.participants.Unset? ==> r.participants == b.participants
    ensures u.participants.Given? ==> r.participants == u.participants.value
    ensures r.updatedAt == if u.IsEmpty() then b.updatedAt else now
    ensures u.IsEmpty() ==> r == b
    ensures b.Valid() ==> r.Valid()
  {
    if u.IsEmpty() then b
    else
      b.(title := Written(b.title, u.title),
         description := WrittenOptional(b.description, u.description),
         totalAmount := Written(b.totalAmount, u.totalAmount),
         dueDate := WrittenOptional(b.dueDate, u.dueDate),
         participants := Written(b.participants, u.participants),
         updatedAt := now)
  }

  /** Sending the same patch twice at the same instant leaves the bill as sending it once. */
  lemma ApplyUpdateIdempotent(b: Bill, u: BillUpdate, now: Instant)
    requires u.Valid()
    ensures ApplyUpdate(ApplyUpdate(b, u, now), u, now) == ApplyUpdate(b, u, now)
  {
  }

  /** The state the bills endpoints work on. */
  class BillService {
    /** The `bills` collection, by document id. */
    var bills: map<ObjectId, Bill>
    /** The ids of the documents in the `users` collection; no endpoint here changes it. */
    var users: set<ObjectId>

    /** Every stored bill satisfies the constraints of the `Bills` record. */
    ghost predicate Valid()
      reads this
    {
      forall id | id in bills :: bills[id].Valid()
    }

    constructor (bills: map<ObjectId, Bill>, users: set<ObjectId>)
      requires forall id | id in bills :: bills[id].Valid()
      ensures Valid() && this.bills == bills && this.users == users
    {
      this.bills := bills;
      this.users := users;
    }

    /** `list_bills`: every bill the caller owns or takes part in, and no other. */
    method ListBills(caller: string) returns (r: Result<set<BillOut>, Failure>)
      ensures ParseObjectId(caller).Err? ==> r == Err(InvalidIdentifier)
      ensures r.Ok? <==> ParseObjectId(caller).Ok?
      ensures r.Ok? ==> forall o | o in r.value ::
                          o.id in bills && o == ToOut(o.id, bills[o.id])
                          && EnsureBillAccess(bills[o.id], ParseObjectId(caller).value).Ok?
      ensures r.Ok? ==> forall id | id in bills && EnsureBillAccess(bills[id], ParseObjectId(caller).value).Ok? ::
                          ToOut(id, bills[id]) in r.value
    {
      var userId := ParseObjectId(caller);
      if userId.Err? {
        return Err(userId.error);
      }
      var found := set id | id in bills && MatchesListQuery(bills[id], userId.value) :: ToOut(id, bills[id]);
      r := Ok(found);
    }

    /** `get_bill`: 400, then 404, then 403, else the bill. */
    method GetBill(id: ObjectId, caller: string) returns (r: Result<BillOut, Failure>)
      ensures ParseObjectId(caller).Err? ==> r == Err(InvalidIdentifier)
      ensures ParseObjectId(caller).Ok? && id !in bills ==> r == Err(BillNotFound)
      ensures (ParseObjectId(caller).Ok? && id in bills
               && EnsureBillAccess(bills[id], ParseObjectId(caller).value).Err?) ==> r == Err(NotAuthorizedToAccess)
      ensures r.Ok? <==> ParseObjectId(caller).Ok? && id in bills
                          && EnsureBillAccess(bills[id], ParseObjectId(caller).value).Ok?
      ensures r.Ok? ==> r.value == ToOut(id, bills[id])
    {
      var userId := ParseObjectId(caller);
      if userId.Err? {
        return Err(userId.error);
      }
      if id !in bills {
        return Err(BillNotFound);
      }
      var bill := bills[id];
      var access := EnsureBillAccess(bill, userId.value);
      if access.Err? {
        return Err(access.error);
      }
      r := Ok(ToOut(id, bill));
    }

    /**
      `create_bill`: a body that breaks a field constraint is refused before
      the handler runs (422); then 400; else a new bill owned by the caller
      is stored under the id the store assigns.
    */
    method CreateBill(payload: BillIn, caller: string, newId: ObjectId, now: Instant)
      returns (r: Result<BillOut, Failure>)
      requires Valid()
      requires newId !in bills
      modifies this`bills
      ensures Valid()
      ensures !payload.Valid() ==> r == Err(InvalidPayload)
      ensures payload.Valid() && ParseObjectId(caller).Err? ==> r == Err(InvalidIdentifier)
      ensures r.Ok? <==> payload.Valid() && ParseObjectId(caller).Ok?
      ensures r.Err? ==> bills == old(bills)
      ensures r.Ok? ==> newId in bills && bills == old(bills)[newId := bills[newId]]
      ensures r.Ok? ==> bills[newId].ownerId == ParseObjectId(caller).value
                        && payload.CopiedInto(bills[newId])
                        && bills[newId].createdAt == now && bills[newId].updatedAt == now
      ensures r.Ok? ==> r.value == ToOut(newId, bills[newId])
    {
      if !payload.Valid() {
        return Err(InvalidPayload);
      }
      var ownerId := ParseObjectId(caller);
      if ownerId.Err? {
        return Err(ownerId.error);
      }
      var newBill := NewBillFrom(payload, ownerId.value, now);
      bills := bills[newId := newBill.value];
      r := Ok(ToOut(newId, newBill.value));
    }

    /**
      `update_bill`: 422, 400, 404, then 403 for anyone but the owner; else
      the fields sent are written and the bill returned.
    */
    method UpdateBill(id: ObjectId, payload: BillUpdate, caller: string, now: Instant)
      returns (r: Result<BillOut, Failure>)
      requires Valid()
      modifies this`bills
      ensures Valid()
      ensures !payload.Valid() ==> r == Err(InvalidPayload)
      ensures payload.Valid() && ParseObjectId(caller).Err? ==> r == Err(InvalidIdentifier)
      ensures payload.Valid() && ParseObjectId(caller).Ok? && id !in old(bills) ==> r == Err(BillNotFound)
      ensures (payload.Valid() && ParseObjectId(caller).Ok? && id in old(bills)
               && old(bills)[id].ownerId != ParseObjectId(caller).value) ==> r == Err(OnlyOwner(Update))
      ensures r.Ok? <==> payload.Valid() && ParseObjectId(caller).Ok? && id in old(bills)
                          && old(bills)[id].ownerId == ParseObjectId(caller).value
      ensures r.Err? ==> bills == old(bills)
      ensures r.Ok? ==> bills == old(bills)[id := ApplyUpdate(old(bills)[id], payload, now)]
                        && r.value == ToOut(id, bills[id])
    {
      if !payload.Valid() {
        return Err(InvalidPayload);
      }
      var ownerId := ParseObjectId(caller);
      if ownerId.Err? {
        return Err(ownerId.error);
      }
      if id !in bills {
        return Err(BillNotFound);
      }
      var bill := bills[id];
      if bill.ownerId != ownerId.value {
        return Err(OnlyOwner(Update));
      }
      if !payload.IsEmpty() {
        bill := ApplyUpdate(bill, payload, now);
        bills := bills[id := bill];
      }
      r := Ok(ToOut(id, bill));
    }

    /** `delete_bill`: 400, 404, then 403 for anyone but the owner; else the bill is removed and returned. */
    method DeleteBill(id: ObjectId, caller: string) returns (r: Result<BillOut, Failure>)
      requires Valid()
      modifies this`bills
      ensures Valid()
      ensures ParseObjectId(caller).Err? ==> r == Err(InvalidIdentifier)
      ensures ParseObjectId(caller).Ok? && id !in old(bills) ==> r == Err(BillNotFound)
      ensures (ParseObjectId(caller).Ok? && id in old(bills)
               && old(bills)[id].ownerId != ParseObjectId(caller).value) ==> r == Err(OnlyOwner(Delete))
      ensures r.Ok? <==> ParseObjectId(caller).Ok? && id in old(bills)
                          && old(bills)[id].ownerId == ParseObjectId(caller).value
      ensures r.Err? ==> bills == old(bills)
      ensures r.Ok? ==> bills == old(bills) - {id} && r.value == ToOut(id, old(bills)[id])
    {
      var ownerId := ParseObjectId(caller);
      if ownerId.Err? {
        return Err(ownerId.error);
      }
      if id !in bills {
        return Err(BillNotFound);
      }
      var bill := bills[id];
      if bill.ownerId != ownerId.value {
        return Err(OnlyOwner(Delete));
      }
      bills := bills - {id};
      r := Ok(ToOut(id, bill));
    }

    /**
      `add_participant`: 400, 404, 403 for anyone but the owner; then 400 when
      an id is unregistered or requested twice, or when an id is already in
      the bill. Otherwise only the participant list changes, to the union of
      the old and the requested ids, each once.
    */
    method AddParticipant(id: ObjectId, request: seq<ObjectId>, caller: string)
      returns (r: Result<BillOut, Failure>)
      requires Valid()
      modifies this`bills
      ensures Valid()
      ensures ParseObjectId(caller).Err? ==> r == Err(InvalidIdentifier)
      ensures ParseObjectId(caller).Ok? && id !in old(bills) ==> r == Err(BillNotFound)
      ensures (ParseObjectId(caller).Ok? && id in old(bills)
               && old(bills)[id].ownerId != ParseObjectId(caller).value) ==> r == Err(OnlyOwner(AddParticipants))
      ensures (ParseObjectId(caller).Ok? && id in old(bills) && old(bills)[id].ownerId == ParseObjectId(caller).value
               && !(Elements(request) <= users && Distinct(request))) ==> r == Err(InvalidParticipantIds)
      ensures (ParseObjectId(caller).Ok? && id in old(bills) && old(bills)[id].ownerId == ParseObjectId(caller).value
               && Elements(request) <= users && Distinct(request)
               && Elements(old(bills)[id].participants) * Elements(request) != {})
              ==> r == Err(AlreadyInBill(Elements(old(bills)[id].participants) * Elements(request)))
      ensures r.Ok? <==> ParseObjectId(caller).Ok? && id in old(bills)
                          && old(bills)[id].ownerId == ParseObjectId(caller).value
                          && Elements(request) <= users && Distinct(request)
                          && Elements(old(bills)[id].participants) !! Elements(request)
      ensures r.Err? ==> bills == old(bills)
      ensures r.Ok? ==> id in bills && bills == old(bills)[id := old(bills)[id].(participants := bills[id].participants)]
      ensures r.Ok? ==> Elements(bills[id].participants) == Elements(old(bills)[id].participants) + Elements(request)
                        && Distinct(bills[id].participants)
      ensures r.Ok? ==> r.value == ToOut(id, bills[id])
    {
      var ownerId := ParseObjectId(caller);
      if ownerId.Err? {
        return Err(ownerId.error);
      }
      if id !in bills {
        return Err(BillNotFound);
      }
      var bill := bills[id];
      if bill.ownerId != ownerId.value {
        return Err(OnlyOwner(AddParticipants));
      }
      RegisteredCountMatches(users, request);
      if RegisteredCount(users, request) != |request| {
        return Err(InvalidParticipantIds);
      }
      var alreadyInBill := Elements(bill.participants) * Elements(request);
      if alreadyInBill != {} {
        return Err(AlreadyInBill(alreadyInBill));
      }
      bill := bill.(participants := MergeParticipants(bill.participants, request));
      bills := bills[id := bill];
      r := Ok(ToOut(id, bill));
    }
  }
}
