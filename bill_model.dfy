/**
  The `Bills` document: a bill owned by one user, shared with a list of
  participant users. Its field constraints are the record's validity
  predicate; its defaults are the default values of `NewBill`.
*/
module BillModel {
  import opened Results
  import opened ObjectIds

  /** A calendar date, as a day number. */
  type Date = int

  /** A UTC instant, as read from the clock the caller passes in. */
  type Instant = int

  const MinTitleLength := 1
  const MaxTitleLength := 255
  const MaxDescriptionLength := 1024

  predicate TitleOk(title: string) {
    MinTitleLength <= |title| <= MaxTitleLength
  }

  predicate DescriptionOk(description: Option<string>) {
    description.None? || |description.value| <= MaxDescriptionLength
  }

  predicate AmountOk(amount: real) {
    amount >= 0.0
  }

  /**
    One stored bill. `ownerId` is required by its type; `totalAmount` stands
    for the source's float and is never computed with.
  */
  datatype Bill = Bill(
    ownerId: ObjectId,
    title: string,
    description: Option<string>,
    totalAmount: real,
    dueDate: Option<Date>,
    participants: seq<ObjectId>,
    createdAt: Instant,
    updatedAt: Instant)
  {
    predicate Valid() {
      TitleOk(title) && DescriptionOk(description) && AmountOk(totalAmount)
    }
  }

  /** Why constructing a `Bills` record was refused. */
  datatype ValidationError = TitleLength | DescriptionTooLong | NegativeAmount

  /**
    `Bills(...)`: builds a record, applying the declared defaults and
    refusing arguments that break a field constraint. Both timestamps
    default to the instant of construction.
  */
  function NewBill(
    ownerId: ObjectId,
    title: string,
    totalAmount: real,
    now: Instant,
    description: Option<string> := None,
    dueDate: Option<Date> := None,
    participants: seq<ObjectId> := []): (r: Result<Bill, ValidationError>)
    ensures r.Ok? <==> TitleOk(title) && DescriptionOk(description) && AmountOk(totalAmount)
    ensures r.Ok? ==> r.value.Valid()
    ensures r.Ok? ==> (r.value.ownerId == ownerId && r.value.title == title
                        && r.value.description == description && r.value.totalAmount == totalAmount
                        && r.value.dueDate == dueDate && r.value.participants == participants)
    ensures r.Ok? ==> r.value.createdAt == now && r.value.updatedAt == now
    ensures !TitleOk(title) ==> r == Err(TitleLength)
  {
    if !TitleOk(title) then Err(TitleLength)
    else if !DescriptionOk(description) then Err(DescriptionTooLong)
    else if !AmountOk(totalAmount) then Err(NegativeAmount)
    else Ok(Bill(ownerId, title, description, totalAmount, dueDate, participants, now, now))
  }

  /** Left out, the optional fields take their declared defaults: no description, no due date, no participants. */
  lemma NewBillDefaults(ownerId: ObjectId, title: string, totalAmount: real, now: Instant)
    requires TitleOk(title) && AmountOk(totalAmount)
    ensures var r := NewBill(ownerId, title, totalAmount, now);
      r.Ok? && r.value.description == None && r.value.dueDate == None
      && r.value.participants == [] && r.value.createdAt == r.value.updatedAt == now
  {
  }
}
