/** A client of the bills endpoints, using only the handlers' contracts. */
module BillScenarios {
  import opened Results
  import opened ObjectIds
  import opened BillModel
  import opened BillDto
  import opened ParticipantSets
  import opened BillsRouter

  /**
    The owner creates a bill and adds a registered user to it. That user can
    then read the bill but can neither update nor delete it, and the bill
    survives their attempts.
  */
  method ParticipantReadsButCannotChange(owner: ObjectId, guest: ObjectId, billId: ObjectId, now: Instant)
    returns (read: Result<BillOut, Failure>, updated: Result<BillOut, Failure>, deleted: Result<BillOut, Failure>)
    requires owner != guest
    ensures read.Ok? && read.value.ownerId == owner && guest in read.value.participants
    ensures updated == Err(OnlyOwner(Update))
    ensures deleted == Err(OnlyOwner(Delete))
  {
    var service := new BillService(map[], {owner, guest});
    ParseText(owner);
    ParseText(guest);
    var created := service.CreateBill(BillIn("Weekend trip", totalAmount := 240.0), Text(owner), billId, now);
    assert created.Ok?;
    var added := service.AddParticipant(billId, [guest], Text(owner));
    assert Elements([guest]) == {guest};
    assert added.Ok?;
    assert guest in Elements(service.bills[billId].participants);
    read := service.GetBill(billId, Text(guest));
    updated := service.UpdateBill(billId, BillUpdate(title := Given("Mine now")), Text(guest), now + 1);
    deleted := service.DeleteBill(billId, Text(guest));
  }
}
