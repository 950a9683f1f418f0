/** What each call writes into a delivery record, told without the functions that do it. */
module DeliveryHistory {
  import opened Prelude
  import opened Delivery
  import Escrow

  function Stored(d: DeliveryState, id: nat): Option<DeliveryRecord> {
    if id in d.records then Some(d.records[id]) else None
  }

  /** Both places are named in at most 256 characters, and the cargo weighs at most a tonne. */
  predicate Proper(m: Metadata) {
    1 <= |m.origin| <= 256 && 1 <= |m.destination| <= 256 && 1 <= m.cargo.weightGrams <= 1_000_000
  }

  /** The calls accepted among those that concern the delivery contract alone. Batches are checked for
      their length only. */
  predicate PermittedLocally(d: DeliveryState, call: DeliveryCall)
    requires !call.Cancel? && !call.Confirm? && !call.Dispute?
  {
    match call
    case CreateOne(_, _, metadata) => Proper(metadata) && d.counter + 1 <= U64_MAX
    case CreateMany(_, _, list) => |list| <= 100 && d.counter + |list| <= U64_MAX
    case EditMetadata(sender, id, metadata) =>
      id in d.records && sender == d.records[id].sender && d.records[id].status == Pending && Proper(metadata)
    case Assign(caller, id, driver) =>
      && id in d.records && d.records[id].status == Pending && caller in {d.admin, driver}
      && driver !in {d.records[id].sender, d.records[id].recipient}
    case StartTransit(driver, id) => id in d.records && d.records[id].status == Active && d.records[id].driver == Some(driver)
  }

  lemma LocalCommitsIff(p: Pair, now: nat, call: DeliveryCall)
    requires !call.Cancel? && !call.Confirm? && !call.Dispute? && p.d.counter <= U64_MAX
    ensures DeliveryDo(p, now, call).Ok? <==> PermittedLocally(p.d, call)
  {
    if call.CreateMany? {
      AddAllCounts(p.d, now, call.sender, call.recipient, call.list);
    }
  }

  /** How many deliveries a committed call creates. */
  function Created(call: DeliveryCall): nat {
    match call
    case CreateOne(_, _, _) => 1
    case CreateMany(_, _, list) => |list|
    case _ => 0
  }

  /** The metadata of the nth delivery a call creates. */
  function MetadataOf(call: DeliveryCall, n: nat): Metadata
    requires n < Created(call)
  {
    match call
    case CreateOne(_, _, metadata) => metadata
    case CreateMany(_, _, list) => list[n]
  }

  /** The record opened under an id when so many deliveries were there before: ids go on from there. */
  function Opened(call: DeliveryCall, count: nat, now: nat, id: nat): Option<DeliveryRecord> {
    if (call.CreateOne? || call.CreateMany?) && count < id <= count + Created(call)
    then Some(DeliveryRecord(id, call.sender, call.recipient, None, Pending, MetadataOf(call, id - count - 1), now, None, None))
    else None
  }

  /** What a committed call makes of a record that is there. */
  function Rewritten(r: DeliveryRecord, now: nat, call: DeliveryCall, id: nat): DeliveryRecord {
    match call
    case EditMetadata(_, i, metadata) => if i == id then r.(metadata := metadata) else r
    case Assign(_, i, driver) => if i == id then r.(status := Active, driver := Some(driver)) else r
    case StartTransit(_, i) => if i == id then r.(status := InTransit, transitStartedAt := Some(now)) else r
    case Confirm(_, i) => if i == id then r.(status := Delivered, deliveredAt := Some(now)) else r
    case Cancel(_, i) => if i == id then r.(status := Cancelled) else r
    case Dispute(_, i) => if i == id then r.(status := Disputed) else r
    case _ => r
  }

  function Replayed(before: Option<DeliveryRecord>, count: nat, now: nat, call: DeliveryCall, id: nat): Option<DeliveryRecord> {
    match before
    case None => Opened(call, count, now, id)
    case Some(r) => Some(Rewritten(r, now, call, id))
  }

  lemma {:induction false} AddAllStores(d: DeliveryState, now: nat, sender: Address, recipient: Address, list: seq<Metadata>, id: nat)
    requires Dense(d) && AddAll(d, now, sender, recipient, list).Ok?
    ensures var e := AddAll(d, now, sender, recipient, list).value;
            && Dense(e) && e.counter == d.counter + |list| && e.admin == d.admin
            && Stored(e, id) == if id in d.records then Stored(d, id) else Opened(CreateMany(sender, recipient, list), d.counter, now, id)
    decreases |list|
  {
    if list != [] {
      AddAllStores(d, now, sender, recipient, list[..|list| - 1], id);
    }
  }

  lemma CreationStores(p: Pair, now: nat, call: DeliveryCall, id: nat)
    requires Dense(p.d) && (call.CreateOne? || call.CreateMany?) && DeliveryDo(p, now, call).Ok?
    ensures var q := DeliveryDo(p, now, call).value;
            && Stored(q.d, id) == Replayed(Stored(p.d, id), p.d.counter, now, call, id)
            && q.d.counter == p.d.counter + Created(call) && q.d.admin == p.d.admin && q.v == p.v
  {
    if call.CreateMany? {
      AddAllStores(p.d, now, call.sender, call.recipient, call.list, id);
    }
  }

  lemma ChangeStores(p: Pair, now: nat, call: DeliveryCall, id: nat)
    requires !call.CreateOne? && !call.CreateMany? && DeliveryDo(p, now, call).Ok?
    ensures call.id in p.d.records
    ensures var q := DeliveryDo(p, now, call).value;
            && Stored(q.d, id) == Replayed(Stored(p.d, id), p.d.counter, now, call, id)
            && q.d.counter == p.d.counter && q.d.admin == p.d.admin
  {
  }

  /** A committed call leaves of every record what the replay says, and hands out the next ids in a row. */
  lemma StepIsReplayed(p: Pair, now: nat, call: DeliveryCall, id: nat)
    requires Dense(p.d) && DeliveryDo(p, now, call).Ok?
    ensures var q := DeliveryDo(p, now, call).value;
            && Stored(q.d, id) == Replayed(Stored(p.d, id), p.d.counter, now, call, id)
            && q.d.counter == p.d.counter + Created(call) && q.d.admin == p.d.admin
  {
    if call.CreateOne? || call.CreateMany? {
      CreationStores(p, now, call, id);
    } else {
      ChangeStores(p, now, call, id);
    }
  }
}
