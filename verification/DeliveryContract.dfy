/** The delivery contract as an object whose storage its entry points overwrite, and which calls the
    escrow contract. Each method does what the contract does, step by step, and is proved equal to
    the Delivery function of the old state of both contracts. */
module DeliveryContracts {
  import opened Prelude
  import opened Delivery
  import EscrowContracts

  /** A batch that failed on a prefix fails as a whole, with the same error. */
  lemma {:induction false} PrefixFails(d: DeliveryState, now: nat, sender: Address, recipient: Address,
                                       list: seq<Metadata>, k: nat)
    requires k <= |list| && AddAll(d, now, sender, recipient, list[..k]).Err?
    ensures AddAll(d, now, sender, recipient, list) == AddAll(d, now, sender, recipient, list[..k])
    decreases |list| - k
  {
    if k < |list| {
      assert list[..k + 1][..k] == list[..k];
      PrefixFails(d, now, sender, recipient, list, k + 1);
    } else {
      assert list[..k] == list;
    }
  }

  /** One more item of a batch. */
  lemma AddAllStep(d: DeliveryState, now: nat, sender: Address, recipient: Address, list: seq<Metadata>, i: nat)
    requires i < |list| && AddAll(d, now, sender, recipient, list[..i]).Ok?
    ensures AddAll(d, now, sender, recipient, list[..i + 1])
         == Add(AddAll(d, now, sender, recipient, list[..i]).value, now, sender, recipient, list[i])
    ensures AddAll(d, now, sender, recipient, list[..i + 1]).Err? ==>
              AddAll(d, now, sender, recipient, list) == AddAll(d, now, sender, recipient, list[..i + 1])
  {
    assert list[..i + 1][..i] == list[..i];
    if AddAll(d, now, sender, recipient, list[..i + 1]).Err? {
      PrefixFails(d, now, sender, recipient, list, i + 1);
    }
  }

  /** The two preloaded lists stand for what single calls would have stored. */
  ghost predicate Preloaded(stored: PartyIndex, current: PartyIndex, sent: PartyKey, received: PartyKey,
                            sentIds: seq<nat>, receivedIds: seq<nat>) {
    && sentIds == Ids(current, sent) && receivedIds == Ids(current, received)
    && stored - {sent, received} == current - {sent, received}
  }

  lemma PreloadedGrows(stored: PartyIndex, current: PartyIndex, sent: PartyKey, received: PartyKey,
                       sentIds: seq<nat>, receivedIds: seq<nat>, id: nat)
    requires sent != received && Preloaded(stored, current, sent, received, sentIds, receivedIds)
    ensures Preloaded(stored, AddTo(AddTo(current, sent, id), received, id), sent, received, sentIds + [id], receivedIds + [id])
  {
    assert AddTo(AddTo(current, sent, id), received, id) - {sent, received} == current - {sent, received};
  }

  /** Storing the two lists at last gives what single calls would have stored. */
  lemma PreloadedStored(stored: PartyIndex, current: PartyIndex, sent: PartyKey, received: PartyKey,
                        sentIds: seq<nat>, receivedIds: seq<nat>)
    requires sent != received && Preloaded(stored, current, sent, received, sentIds, receivedIds)
    ensures stored[sent := sentIds][received := receivedIds]
         == current[sent := Ids(current, sent)][received := Ids(current, received)]
  {
    assert stored[sent := sentIds][received := receivedIds]
        == (stored - {sent, received})[sent := sentIds][received := receivedIds];
    assert current[sent := sentIds][received := receivedIds]
        == (current - {sent, received})[sent := sentIds][received := receivedIds];
  }

  class DeliveryContract {
    const escrow: EscrowContracts.EscrowContract

    var admin: Address
    var counter: nat
    var records: map<nat, DeliveryRecord>
    var index: PartyIndex

    function State(): DeliveryState
      reads this
    {
      DeliveryState(admin, counter, records, index)
    }

    ghost function View(): Pair
      reads this, escrow, escrow.ledger
    {
      Pair(State(), escrow.View())
    }

    /** The new state of both contracts and the reported result are those of the specified outcome. */
    ghost predicate Reports(outcome: Result<Pair>, before: Pair, r: Result<Unit>)
      reads this, escrow, escrow.ledger
    {
      match outcome
      case Ok(after) => r == Ok(Unit) && View() == after
      case Err(e) => r == Err(e) && View() == before
    }

    /** The same for an entry point that leaves the escrow contract alone. */
    ghost predicate ReportsAlone(outcome: Result<DeliveryState>, before: DeliveryState, r: Result<Unit>)
      reads this
    {
      match outcome
      case Ok(after) => r == Ok(Unit) && State() == after
      case Err(e) => r == Err(e) && State() == before
    }

    constructor (escrow: EscrowContracts.EscrowContract, admin: Address)
      ensures this.escrow == escrow && State() == DeliveryState(admin, 0, map[], map[])
    {
      this.escrow, this.admin := escrow, admin;
      counter, records, index := 0, map[], map[];
    }

    method AppendId(key: PartyKey, id: nat)
      modifies `index
      ensures index == AddTo(old(index), key, id)
    {
      var ids := if key in index then index[key] else [];
      ids := ids + [id];
      index := index[key := ids];
    }

    method CreateDelivery(now: nat, sender: Address, recipient: Address, metadata: Metadata) returns (r: Result<nat>)
      modifies `counter, `records, `index
      ensures match Create(old(State()), now, sender, recipient, metadata)
              case Ok(after) => r == Ok(old(counter) + 1) && State() == after
              case Err(e) => r == Err(e) && State() == old(State())
    {
      if !ValidMetadata(metadata) {
        return Err(InvalidMetadata);
      }
      var id :- AddU64(counter, 1);
      counter := id;
      records := records[id := DeliveryRecord(id, sender, recipient, None, Pending, metadata, now, None, None)];
      AppendId(SentBy(sender), id);
      AppendId(SentTo(recipient), id);
      return Ok(id);
    }

    /** One round of the batch loop: the counter and the record are stored, the two lists only grow. */
    method AddItem(now: nat, sender: Address, recipient: Address, metadata: Metadata, sent: seq<nat>, received: seq<nat>,
                   ghost done: DeliveryState)
      returns (r: Result<nat>, ghost next: DeliveryState)
      requires State() == done.(index := index)
      requires Preloaded(index, done.index, SentBy(sender), SentTo(recipient), sent, received)
      modifies `counter, `records
      ensures r.Ok? ==>
                && r.value == counter == old(counter) + 1
                && Add(done, now, sender, recipient, metadata) == Ok(next) && State() == next.(index := index)
                && Preloaded(index, next.index, SentBy(sender), SentTo(recipient), sent + [r.value], received + [r.value])
      ensures r.Err? ==> Add(done, now, sender, recipient, metadata) == Err(r.error)
    {
      next := done;
      var added := AddU64(counter, 1);
      if added.Err? {
        return added, next;
      }
      var id := added.value;
      counter := id;
      records := records[id := DeliveryRecord(id, sender, recipient, None, Pending, metadata, now, None, None)];
      next := Add(done, now, sender, recipient, metadata).value;
      PreloadedGrows(index, done.index, SentBy(sender), SentTo(recipient), sent, received, id);
      return Ok(id), next;
    }

    /** The batch loop. Storage ends up as single calls would have left it, but for the two lists. */
    method AddItems(now: nat, sender: Address, recipient: Address, list: seq<Metadata>)
      returns (r: Result<seq<nat>>, sent: seq<nat>, received: seq<nat>)
      modifies `counter, `records
      ensures match AddAll(old(State()), now, sender, recipient, list)
              case Ok(done) =>
                && State() == done.(index := index) && Preloaded(index, done.index, SentBy(sender), SentTo(recipient), sent, received)
                && r.Ok? && |r.value| == |list|
                && (forall i :: 0 <= i < |list| ==> r.value[i] == old(counter) + 1 + i)
              case Err(e) => r == Err(e)
    {
      ghost var start, done := State(), State();
      sent := if SentBy(sender) in index then index[SentBy(sender)] else [];
      received := if SentTo(recipient) in index then index[SentTo(recipient)] else [];
      var ids: seq<nat> := [];
      for i := 0 to |list|
        invariant AddAll(start, now, sender, recipient, list[..i]) == Ok(done)
        invariant State() == done.(index := index)
        invariant Preloaded(index, done.index, SentBy(sender), SentTo(recipient), sent, received)
        invariant |ids| == i && counter == start.counter + i
        invariant forall j :: 0 <= j < i ==> ids[j] == start.counter + 1 + j
      {
        AddAllStep(start, now, sender, recipient, list, i);
        var added;
        added, done := AddItem(now, sender, recipient, list[i], sent, received, done);
        if added.Err? {
          return Err(added.error), sent, received;
        }
        sent, received, ids := sent + [added.value], received + [added.value], ids + [added.value];
      }
      assert list[..|list|] == list;
      return Ok(ids), sent, received;
    }

    method CreateDeliveriesBatch(now: nat, sender: Address, recipient: Address, list: seq<Metadata>) returns (r: Result<seq<nat>>)
      modifies `counter, `records, `index
      ensures match CreateAll(old(State()), now, sender, recipient, list)
              case Ok(after) =>
                && State() == after && r.Ok? && |r.value| == |list|
                && (forall i :: 0 <= i < |list| ==> r.value[i] == old(counter) + 1 + i)
              case Err(e) => r == Err(e) && State() == old(State())
    {
      if |list| > MAX_BATCH_SIZE {
        return Err(BatchTooLarge);
      }
      var savedCounter, savedRecords := counter, records;
      var sent, received;
      r, sent, received := AddItems(now, sender, recipient, list);
      if r.Err? {
        // The host discards the writes of a call that panicked.
        counter, records := savedCounter, savedRecords;
        return;
      }
      PreloadedStored(index, AddAll(old(State()), now, sender, recipient, list).value.index, SentBy(sender), SentTo(recipient),
                      sent, received);
      index := index[SentBy(sender) := sent];
      index := index[SentTo(recipient) := received];
    }

    method UpdateDeliveryMetadata(sender: Address, id: nat, metadata: Metadata) returns (r: Result<Unit>)
      modifies `records
      ensures ReportsAlone(DoEditMetadata(old(State()), sender, id, metadata), old(State()), r)
    {
      if id !in records {
        return Err(NotFound);
      }
      var delivery := records[id];
      if delivery.sender != sender {
        return Err(Unauthorized);
      }
      if delivery.status != Pending {
        return Err(InvalidState);
      }
      if !ValidMetadata(metadata) {
        return Err(InvalidMetadata);
      }
      records := records[id := delivery.(metadata := metadata)];
      return Ok(Unit);
    }

    method CancelDelivery(sender: Address, id: nat) returns (r: Result<Unit>)
      modifies `records, escrow`records, escrow`totalLocked, escrow`audit, escrow.ledger
      ensures Reports(DoCancel(old(View()), sender, id), old(View()), r)
    {
      if id !in records {
        return Err(NotFound);
      }
      var delivery := records[id];
      if delivery.sender != sender {
        return Err(Unauthorized);
      }
      if !ValidTransition(delivery.status, Cancelled) {
        return Err(InvalidState);
      }
      var _ :- escrow.RefundEscrow(sender, id);
      records := records[id := delivery.(status := Cancelled)];
      return Ok(Unit);
    }

    method AssignDriver(caller: Address, id: nat, driver: Address) returns (r: Result<Unit>)
      modifies `records
      ensures ReportsAlone(DoAssign(old(State()), caller, id, driver), old(State()), r)
    {
      var isAdmin := caller == admin;
      var isSelfAssignment := caller == driver;
      if !isAdmin && !isSelfAssignment {
        return Err(Unauthorized);
      }
      if id !in records {
        return Err(NotFound);
      }
      var delivery := records[id];
      if driver == delivery.sender || driver == delivery.recipient {
        return Err(InvalidDriver);
      }
      if !ValidTransition(delivery.status, Active) {
        return Err(InvalidState);
      }
      records := records[id := delivery.(driver := Some(driver), status := Active)];
      return Ok(Unit);
    }

    method MarkInTransit(now: nat, driver: Address, id: nat) returns (r: Result<Unit>)
      modifies `records
      ensures ReportsAlone(DoStartTransit(old(State()), now, driver, id), old(State()), r)
    {
      if id !in records {
        return Err(NotFound);
      }
      var delivery := records[id];
      if delivery.driver.None? || delivery.driver.value != driver {
        return Err(Unauthorized);
      }
      if !ValidTransition(delivery.status, InTransit) {
        return Err(InvalidState);
      }
      records := records[id := delivery.(status := InTransit, transitStartedAt := Some(now))];
      return Ok(Unit);
    }

    method ConfirmDelivery(now: nat, recipient: Address, id: nat) returns (r: Result<Unit>)
      modifies `records, escrow`records
      ensures Reports(DoConfirm(old(View()), now, recipient, id), old(View()), r)
    {
      if id !in records {
        return Err(NotFound);
      }
      var delivery := records[id];
      if recipient != delivery.recipient {
        return Err(Unauthorized);
      }
      if delivery.driver.Some? && (delivery.driver.value == recipient || delivery.driver.value == delivery.sender) {
        return Err(InvalidRecord);
      }
      if !ValidTransition(delivery.status, Delivered) {
        return Err(InvalidState);
      }
      var _ :- escrow.MarkHoldbackEscrow(recipient, id);
      records := records[id := delivery.(status := Delivered, deliveredAt := Some(now))];
      return Ok(Unit);
    }

    method RaiseDispute(now: nat, caller: Address, id: nat) returns (r: Result<Unit>)
      modifies `records, escrow`records
      ensures Reports(DoDispute(old(View()), now, caller, id), old(View()), r)
    {
      if id !in records {
        return Err(NotFound);
      }
      var delivery := records[id];
      if caller != delivery.sender && caller != delivery.recipient {
        return Err(Unauthorized);
      }
      if !ValidTransition(delivery.status, Disputed) {
        return Err(InvalidState);
      }
      var _ :- escrow.RaiseDispute(now, caller, id);
      records := records[id := delivery.(status := Disputed)];
      return Ok(Unit);
    }
  }
}
