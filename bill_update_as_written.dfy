/**
  `update_bill` as written, on the document the database holds. A
  `BillUpdate` field sent as `null` passes the declared constraints, is kept
  by the dump with `exclude_unset`, and is written by `bill.set(...)`, also
  for the title, total amount and participant list that a `Bills` record
  requires.
*/
module BillUpdateAsWritten {
  import opened Results
  import opened ObjectIds
  import opened BillModel
  import opened BillDto
  import opened BillsRouter

  /** A stored bill document, in which a `$set` may have put `null` into any field. */
  datatype StoredBill = StoredBill(
    ownerId: ObjectId,
    title: Option<string>,
    description: Option<string>,
    totalAmount: Option<real>,
    dueDate: Option<Date>,
    participants: Option<seq<ObjectId>>,
    createdAt: Instant,
    updatedAt: Instant)

  /** The document a record is saved as. */
  function Store(b: Bill): StoredBill {
    StoredBill(b.ownerId, Some(b.title), b.description, Some(b.totalAmount), b.dueDate,
               Some(b.participants), b.createdAt, b.updatedAt)
  }

  /** The `Bills` record a document holds, or None when the document breaks the record's constraints. */
  function Load(d: StoredBill): (r: Option<Bill>)
    ensures r.Some? ==> r.value.Valid() && Store(r.value) == d
    ensures r.None? ==> forall b: Bill | b.Valid() :: Store(b) != d
  {
    if d.title.Some? && d.totalAmount.Some? && d.participants.Some?
       && TitleOk(d.title.value) && DescriptionOk(d.description) && AmountOk(d.totalAmount.value)
    then Some(Bill(d.ownerId, d.title.value, d.description, d.totalAmount.value, d.dueDate,
                   d.participants.value, d.createdAt, d.updatedAt))
    else None
  }

  /** Lines 91-94 as written: every field that was sent, `null` or not, is set, and `updated_at` with them. */
  function UpdateStoredAsWritten(d: StoredBill, u: BillUpdate, now: Instant): (r: StoredBill)
    ensures r.ownerId == d.ownerId && r.createdAt == d.createdAt
    ensures u.title.Unset? ==> r.title == d.title
    ensures u.title.Null? ==> r.title == None
    ensures u.title.Given? ==> r.title == Some(u.title.value)
    ensures u.totalAmount.Unset? ==> r.totalAmount == d.totalAmount
    ensures u.totalAmount.Null? ==> r.totalAmount == None
    ensures u.totalAmount.Given? ==> r.totalAmount == Some(u.totalAmount.value)
    ensures u.participants.Unset? ==> r.participants == d.participants
    ensures u.participants.Null? ==> r.participants == None
    ensures u.participants.Given? ==> r.participants == Some(u.participants.value)
    ensures u.description.Unset? ==> r.description == d.description
    ensures u.description.Null? ==> r.description == None
    ensures u.description.Given? ==> r.description == Some(u.description.value)
    ensures u.dueDate.Unset? ==> r.dueDate == d.dueDate
    ensures u.dueDate.Null? ==> r.dueDate == None
    ensures u.dueDate.Given? ==> r.dueDate == Some(u.dueDate.value)
    ensures r.updatedAt == if u.IsEmpty() then d.updatedAt else now
  {
    if u.IsEmpty() then d
    else
      d.(title := WrittenOptional(d.title, u.title),
         description := WrittenOptional(d.description, u.description),
         totalAmount := WrittenOptional(d.totalAmount, u.totalAmount),
         dueDate := WrittenOptional(d.dueDate, u.dueDate),
         participants := WrittenOptional(d.participants, u.participants),
         updatedAt := now)
  }

  /**
    For a patch the declared constraints accept, the stored bill stays a
    `Bills` record exactly when the patch sends no `null` for a required
    field: exactly the patches `BillUpdate.Valid` admits.
  */
  lemma StoredBillStaysRecordIffValid(b: Bill, u: BillUpdate, now: Instant)
    requires b.Valid() && u.AcceptedAsDeclared()
    ensures Load(UpdateStoredAsWritten(Store(b), u, now)).Some? <==> u.Valid()
  {
  }

  /** A patch that sends only `"title": null` is accepted as declared and leaves a stored bill without a title. */
  lemma NullTitleIsWritten(owner: ObjectId, now: Instant)
    ensures var b := Bill(owner, "Trip", None, 0.0, None, [], now, now);
            var u := BillUpdate(title := Null);
            && b.Valid() && u.AcceptedAsDeclared() && !u.Valid()
            && UpdateStoredAsWritten(Store(b), u, now).title == None
            && Load(UpdateStoredAsWritten(Store(b), u, now)) == None
  {
  }

  /**
    On the patches `BillUpdate.Valid` admits, the write as coded and the
    model's `ApplyUpdate` store the same document.
  */
  lemma CorrectedUpdateAgrees(b: Bill, u: BillUpdate, now: Instant)
    requires b.Valid() && u.Valid()
    ensures UpdateStoredAsWritten(Store(b), u, now) == Store(ApplyUpdate(b, u, now))
    ensures Load(UpdateStoredAsWritten(Store(b), u, now)) == Some(ApplyUpdate(b, u, now))
  {
  }
}
