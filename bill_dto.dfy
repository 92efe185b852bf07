/**
  The payloads of the bills endpoints: `BillIn` (create), `BillUpdate`
  (partial update) and `BillOut` (the response projection). `BillIn` and
  `BillUpdate` repeat the bounds of the `Bills` record, so their validity
  is stated with the record's own constraint predicates.
*/
module BillDto {
  import opened Results
  import opened ObjectIds
  import opened BillModel

  /** The body of a create request. It has no owner and no timestamps. */
  datatype BillIn = BillIn(
    title: string,
    description: Option<string> := None,
    totalAmount: real,
    dueDate: Option<Date> := None,
    participants: seq<ObjectId> := [])
  {
    predicate Valid() {
      TitleOk(title) && DescriptionOk(description) && AmountOk(totalAmount)
    }

    /** `b` holds exactly this payload's fields. */
    predicate CopiedInto(b: Bill) {
      b.title == title && b.description == description && b.totalAmount == totalAmount
      && b.dueDate == dueDate && b.participants == participants
    }
  }

  /**
    One field of a partial update as the client sent it: left out, sent as
    `null`, or sent with a value. Dumping with `exclude_unset` keeps the
    second and third kinds.
  */
  datatype Patch<T> = Unset | Null | Given(value: T)

  /** The body of an update request. Every field is optional; there is no owner field. */
  datatype BillUpdate = BillUpdate(
    title: Patch<string> := Unset,
    description: Patch<string> := Unset,
    totalAmount: Patch<real> := Unset,
    dueDate: Patch<Date> := Unset,
    participants: Patch<seq<ObjectId>> := Unset)
  {
    /**
      The constraints as declared: each field may be left out or null, and a
      value that is given obeys the bound of the matching `Bills` field.
    */
    predicate AcceptedAsDeclared() {
      && (title.Given? ==> TitleOk(title.value))
      && (description.Given? ==> DescriptionOk(Some(description.value)))
      && (totalAmount.Given? ==> AmountOk(totalAmount.value))
    }

    /**
      The constraints as intended: in addition, no `null` for a field the
      record requires (title, total amount, participant list).
    */
    predicate Valid() {
      AcceptedAsDeclared() && !title.Null? && !totalAmount.Null? && !participants.Null?
    }

    /** Nothing was sent: the dump with `exclude_unset` is empty. */
    predicate IsEmpty() {
      title.Unset? && description.Unset? && totalAmount.Unset? && dueDate.Unset? && participants.Unset?
    }
  }

  /** The response projection of a stored bill: its id and every field but the timestamps. */
  datatype BillOut = BillOut(
    id: ObjectId,
    ownerId: ObjectId,
    title: string,
    description: Option<string>,
    totalAmount: real,
    dueDate: Option<Date>,
    participants: seq<ObjectId>)

  function ToOut(id: ObjectId, b: Bill): (o: BillOut)
    ensures o.id == id && o.ownerId == b.ownerId && o.participants == b.participants
  {
    BillOut(id, b.ownerId, b.title, b.description, b.totalAmount, b.dueDate, b.participants)
  }

  /** Two stored bills look the same in a response exactly when they differ at most in their timestamps. */
  lemma ToOutForgetsTimestamps(id: ObjectId, b: Bill, c: Bill)
    ensures ToOut(id, b) == ToOut(id, c) <==> b == c.(createdAt := b.createdAt, updatedAt := b.updatedAt)
  {
  }
}
