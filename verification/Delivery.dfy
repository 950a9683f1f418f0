/** The delivery contract's storage, and what each entry point does to it and, through
    cross-contract calls, to the escrow contract's vault. */
module Delivery {
  import opened Prelude
  import Escrow

  const MAX_BATCH_SIZE: nat := 100
  const MAX_LOCATION_LEN: nat := 256
  const MAX_WEIGHT_GRAMS: nat := 1_000_000

  datatype DeliveryStatus = Pending | Active | InTransit | Delivered | Disputed | Cancelled

  datatype Cargo = Cargo(weightGrams: nat, category: string, fragile: bool)

  datatype Metadata = Metadata(
    deliveryId: nat, origin: string, destination: string, cargo: Cargo, createdAt: nat, estimatedDelivery: nat)

  datatype DeliveryRecord = DeliveryRecord(
    id: nat, sender: Address, recipient: Address, driver: Option<Address>, status: DeliveryStatus,
    metadata: Metadata, createdAt: nat, deliveredAt: Option<nat>, transitStartedAt: Option<nat>)

  /** Keys of the two secondary indexes. */
  datatype PartyKey = SentBy(address: Address) | SentTo(address: Address)

  type PartyIndex = map<PartyKey, seq<nat>>

  datatype DeliveryState = DeliveryState(
    admin: Address, counter: nat, records: map<nat, DeliveryRecord>, index: PartyIndex)

  datatype DeliveryCall =
    | CreateOne(sender: Address, recipient: Address, metadata: Metadata)
    | CreateMany(sender: Address, recipient: Address, list: seq<Metadata>)
    | EditMetadata(sender: Address, id: nat, metadata: Metadata)
    | Cancel(sender: Address, id: nat)
    | Assign(caller: Address, id: nat, driver: Address)
    | StartTransit(driver: Address, id: nat)
    | Confirm(recipient: Address, id: nat)
    | Dispute(caller: Address, id: nat)

  /** The transition table by itself; the escrow's guards make two of its entries unreachable. */
  predicate ValidTransition(from: DeliveryStatus, to: DeliveryStatus) {
    match (from, to)
    case (Pending, Active) => true
    case (Pending, Cancelled) => true
    case (Active, InTransit) => true
    case (Active, Disputed) => true
    case (Active, Cancelled) => true
    case (InTransit, Delivered) => true
    case (InTransit, Disputed) => true
    case (Delivered, Disputed) => true
    case (Disputed, Delivered) => true
    case _ => false
  }

  predicate ValidMetadata(m: Metadata) {
    && 0 < |m.origin| <= MAX_LOCATION_LEN
    && 0 < |m.destination| <= MAX_LOCATION_LEN
    && 0 < m.cargo.weightGrams <= MAX_WEIGHT_GRAMS
  }

  function Ids(index: PartyIndex, key: PartyKey): seq<nat> {
    if key in index then index[key] else []
  }

  function AddTo(index: PartyIndex, key: PartyKey, id: nat): PartyIndex {
    index[key := Ids(index, key) + [id]]
  }

  function NewDelivery(id: nat, now: nat, sender: Address, recipient: Address, metadata: Metadata): DeliveryRecord {
    DeliveryRecord(id, sender, recipient, None, Pending, metadata, now, None, None)
  }

  // ── Creation ────────────────────────────────────────────────────────────────

  /** The step both ways of creating a delivery share. */
  function Add(d: DeliveryState, now: nat, sender: Address, recipient: Address, metadata: Metadata): Result<DeliveryState> {
    var id :- AddU64(d.counter, 1);
    Ok(d.(counter := id,
          records := d.records[id := NewDelivery(id, now, sender, recipient, metadata)],
          index := AddTo(AddTo(d.index, SentBy(sender), id), SentTo(recipient), id)))
  }

  function Create(d: DeliveryState, now: nat, sender: Address, recipient: Address, metadata: Metadata): Result<DeliveryState> {
    if !ValidMetadata(metadata) then Err(InvalidMetadata) else Add(d, now, sender, recipient, metadata)
  }

  function AddAll(d: DeliveryState, now: nat, sender: Address, recipient: Address, list: seq<Metadata>): Result<DeliveryState>
    decreases |list|
  {
    if list == [] then Ok(d)
    else
      var e :- AddAll(d, now, sender, recipient, list[..|list| - 1]);
      Add(e, now, sender, recipient, list[|list| - 1])
  }

  function Touched(index: PartyIndex, sender: Address, recipient: Address): PartyIndex {
    var once := index[SentBy(sender) := Ids(index, SentBy(sender))];
    once[SentTo(recipient) := Ids(once, SentTo(recipient))]
  }

  /** The batch checks its length but not the metadata. */
  function CreateAll(d: DeliveryState, now: nat, sender: Address, recipient: Address, list: seq<Metadata>): Result<DeliveryState> {
    if |list| > MAX_BATCH_SIZE then Err(BatchTooLarge)
    else
      var e :- AddAll(d, now, sender, recipient, list);
      Ok(e.(index := Touched(e.index, sender, recipient)))
  }

  // ── Life of a delivery ──────────────────────────────────────────────────────

  function Load(d: DeliveryState, id: nat): Result<DeliveryRecord> {
    if id in d.records then Ok(d.records[id]) else Err(NotFound)
  }

  function Store(d: DeliveryState, id: nat, r: DeliveryRecord): DeliveryState {
    d.(records := d.records[id := r])
  }

  function DoEditMetadata(d: DeliveryState, sender: Address, id: nat, metadata: Metadata): Result<DeliveryState> {
    var r :- Load(d, id);
    if r.sender != sender then Err(Unauthorized)
    else if r.status != Pending then Err(InvalidState)
    else if !ValidMetadata(metadata) then Err(InvalidMetadata)
    else Ok(Store(d, id, r.(metadata := metadata)))
  }

  function DoAssign(d: DeliveryState, caller: Address, id: nat, driver: Address): Result<DeliveryState> {
    if caller != d.admin && caller != driver then Err(Unauthorized)
    else
      var r :- Load(d, id);
      if driver == r.sender || driver == r.recipient then Err(InvalidDriver)
      else if !ValidTransition(r.status, Active) then Err(InvalidState)
      else Ok(Store(d, id, r.(driver := Some(driver), status := Active)))
  }

  function DoStartTransit(d: DeliveryState, now: nat, driver: Address, id: nat): Result<DeliveryState> {
    var r :- Load(d, id);
    if r.driver != Some(driver) then Err(Unauthorized)
    else if !ValidTransition(r.status, InTransit) then Err(InvalidState)
    else Ok(Store(d, id, r.(status := InTransit, transitStartedAt := Some(now))))
  }

  /** The delivery contract and the vault together, as a cross-contract call leaves them. */
  datatype Pair = Pair(d: DeliveryState, v: Escrow.Vault)

  function DoCancel(p: Pair, sender: Address, id: nat): Result<Pair> {
    var r :- Load(p.d, id);
    if r.sender != sender then Err(Unauthorized)
    else if !ValidTransition(r.status, Cancelled) then Err(InvalidState)
    else
      var v :- Escrow.DoRefund(p.v, sender, id);
      Ok(Pair(Store(p.d, id, r.(status := Cancelled)), v))
  }

  function DoConfirm(p: Pair, now: nat, recipient: Address, id: nat): Result<Pair> {
    var r :- Load(p.d, id);
    if recipient != r.recipient then Err(Unauthorized)
    else if r.driver == Some(recipient) || r.driver == Some(r.sender) then Err(InvalidRecord)
    else if !ValidTransition(r.status, Delivered) then Err(InvalidState)
    else
      var v :- Escrow.DoMarkHoldback(p.v, recipient, id);
      Ok(Pair(Store(p.d, id, r.(status := Delivered, deliveredAt := Some(now))), v))
  }

  function DoDispute(p: Pair, now: nat, caller: Address, id: nat): Result<Pair> {
    var r :- Load(p.d, id);
    if caller != r.sender && caller != r.recipient then Err(Unauthorized)
    else if !ValidTransition(r.status, Disputed) then Err(InvalidState)
    else
      var v :- Escrow.DoRaiseDispute(p.v, now, caller, id);
      Ok(Pair(Store(p.d, id, r.(status := Disputed)), v))
  }

  function DeliveryDo(p: Pair, now: nat, call: DeliveryCall): Result<Pair> {
    match call
    case CreateOne(sender, recipient, metadata) =>
      var d :- Create(p.d, now, sender, recipient, metadata);
      Ok(p.(d := d))
    case CreateMany(sender, recipient, list) =>
      var d :- CreateAll(p.d, now, sender, recipient, list);
      Ok(p.(d := d))
    case EditMetadata(sender, id, metadata) =>
      var d :- DoEditMetadata(p.d, sender, id, metadata);
      Ok(p.(d := d))
    case Cancel(sender, id) => DoCancel(p, sender, id)
    case Assign(caller, id, driver) =>
      var d :- DoAssign(p.d, caller, id, driver);
      Ok(p.(d := d))
    case StartTransit(driver, id) =>
      var d :- DoStartTransit(p.d, now, driver, id);
      Ok(p.(d := d))
    case Confirm(recipient, id) => DoConfirm(p, now, recipient, id)
    case Dispute(caller, id) => DoDispute(p, now, caller, id)
  }

  // ── The books of the delivery contract ──────────────────────────────────────

  predicate Matches(r: DeliveryRecord, key: PartyKey) {
    match key
    case SentBy(a) => r.sender == a
    case SentTo(a) => r.recipient == a
  }

  /** The ids up to n whose record names the key's address, in creation order. */
  function Naming(n: nat, records: map<nat, DeliveryRecord>, key: PartyKey): seq<nat> {
    if n == 0 then []
    else Naming(n - 1, records, key) + (if n in records && Matches(records[n], key) then [n] else [])
  }

  /** Ids are dense, and each record stores its own. */
  ghost predicate Dense(d: DeliveryState) {
    forall id :: (id in d.records <==> 1 <= id <= d.counter) && (id in d.records ==> d.records[id].id == id)
  }

  ghost predicate Indexed(d: DeliveryState) {
    forall key :: Ids(d.index, key) == Naming(d.counter, d.records, key)
  }

  /** Who drives, and when things happened, as far as a record's status tells. */
  ghost predicate RecordSound(r: DeliveryRecord, now: nat) {
    && (r.status == Pending ==> r.driver == None)
    && (r.status in {Active, InTransit, Delivered, Disputed} ==> r.driver.Some?)
    && r.driver != Some(r.sender) && r.driver != Some(r.recipient)
    && (r.deliveredAt.Some? <==> r.status == Delivered)
    && r.createdAt <= now
    && (r.transitStartedAt.Some? ==> r.createdAt <= r.transitStartedAt.value <= now)
    && (r.status in {InTransit, Delivered} ==> r.transitStartedAt.Some?)
    && (r.status == Delivered ==> r.transitStartedAt.value <= r.deliveredAt.value <= now)
  }

  ghost predicate DeliveryInv(d: DeliveryState, now: nat) {
    && Dense(d) && Indexed(d) && d.counter <= U64_MAX
    && (forall id :: id in d.records ==> RecordSound(d.records[id], now))
  }

  lemma {:induction false} NamingFrame(n: nat, before: map<nat, DeliveryRecord>, after: map<nat, DeliveryRecord>, key: PartyKey)
    requires forall id :: 1 <= id <= n ==>
                            (id in before <==> id in after)
                            && (id in before ==> after[id].sender == before[id].sender && after[id].recipient == before[id].recipient)
    ensures Naming(n, after, key) == Naming(n, before, key)
    decreases n
  {
    if n > 0 {
      NamingFrame(n - 1, before, after, key);
    }
  }

  /** An index list names exactly the matching ids, in strictly increasing order. */
  lemma {:induction false} NamingExact(n: nat, records: map<nat, DeliveryRecord>, key: PartyKey)
    ensures forall id :: id in Naming(n, records, key) <==> 1 <= id <= n && id in records && Matches(records[id], key)
    ensures forall i, j :: 0 <= i < j < |Naming(n, records, key)| ==> Naming(n, records, key)[i] < Naming(n, records, key)[j]
    decreases n
  {
    if n > 0 {
      NamingExact(n - 1, records, key);
      var shorter := Naming(n - 1, records, key);
      forall i | 0 <= i < |shorter| ensures shorter[i] <= n - 1 {
        assert shorter[i] in shorter;
      }
    }
  }

  lemma AddKeepsIndexed(d: DeliveryState, now: nat, sender: Address, recipient: Address, metadata: Metadata)
    requires Dense(d) && Indexed(d) && Add(d, now, sender, recipient, metadata).Ok?
    ensures Indexed(Add(d, now, sender, recipient, metadata).value)
  {
    var e := Add(d, now, sender, recipient, metadata).value;
    forall key ensures Ids(e.index, key) == Naming(e.counter, e.records, key) {
      NamingFrame(d.counter, d.records, e.records, key);
      assert Ids(d.index, key) == Naming(d.counter, d.records, key);
    }
  }

  lemma AddKeepsInv(d: DeliveryState, now: nat, sender: Address, recipient: Address, metadata: Metadata)
    requires DeliveryInv(d, now) && Add(d, now, sender, recipient, metadata).Ok?
    ensures DeliveryInv(Add(d, now, sender, recipient, metadata).value, now)
  {
    AddKeepsIndexed(d, now, sender, recipient, metadata);
  }

  lemma {:induction false} AddAllKeepsInv(d: DeliveryState, now: nat, sender: Address, recipient: Address, list: seq<Metadata>)
    requires DeliveryInv(d, now) && AddAll(d, now, sender, recipient, list).Ok?
    ensures DeliveryInv(AddAll(d, now, sender, recipient, list).value, now)
    decreases |list|
  {
    if list != [] {
      AddAllKeepsInv(d, now, sender, recipient, list[..|list| - 1]);
      AddKeepsInv(AddAll(d, now, sender, recipient, list[..|list| - 1]).value, now, sender, recipient, list[|list| - 1]);
    }
  }

  lemma TouchKeepsInv(d: DeliveryState, now: nat, sender: Address, recipient: Address)
    requires DeliveryInv(d, now)
    ensures DeliveryInv(d.(index := Touched(d.index, sender, recipient)), now)
  {
    forall key ensures Ids(Touched(d.index, sender, recipient), key) == Naming(d.counter, d.records, key) {
      assert Ids(d.index, key) == Naming(d.counter, d.records, key);
    }
  }

  /** Overwriting a record by a sound one of the same parties. */
  lemma StoreKeepsInv(d: DeliveryState, now: nat, id: nat, r: DeliveryRecord)
    requires DeliveryInv(d, now) && id in d.records && RecordSound(r, now)
    requires r.id == id && r.sender == d.records[id].sender && r.recipient == d.records[id].recipient
    ensures DeliveryInv(Store(d, id, r), now)
  {
    var e := Store(d, id, r);
    forall key ensures Ids(e.index, key) == Naming(e.counter, e.records, key) {
      NamingFrame(d.counter, d.records, e.records, key);
      assert Ids(d.index, key) == Naming(d.counter, d.records, key);
    }
  }

  /** What a delivery says about the escrow of the same id: its status, who confirmed it, and who
      disputed it. */
  ghost predicate Tied(r: DeliveryRecord, v: Escrow.Vault, id: nat) {
    match r.status
    case Cancelled => id in v.e.records && v.e.records[id].status == Escrow.Refunded
    case Delivered =>
      && id in v.e.records && v.e.records[id].status in {Escrow.Holdback, Escrow.Released, Escrow.Refunded}
      && v.e.records[id].recipient == r.recipient
    case Disputed =>
      && id in v.e.records && v.e.records[id].status in {Escrow.Paused, Escrow.Released, Escrow.Refunded, Escrow.Split}
      && (v.e.records[id].disputedBy == Some(r.sender) || v.e.records[id].disputedBy == Some(r.recipient))
    case _ => true
  }

  ghost predicate AllTied(p: Pair) {
    forall id :: id in p.d.records ==> Tied(p.d.records[id], p.v, id)
  }

  /** The record a call on one delivery stores: sound again, and of the same parties. The escrow's
      guards rule out the two transitions that would spoil it. */
  lemma StepStoresSound(p: Pair, now: nat, call: DeliveryCall)
    requires DeliveryInv(p.d, now) && AllTied(p)
    requires !call.CreateOne? && !call.CreateMany? && DeliveryDo(p, now, call).Ok?
    ensures var q := DeliveryDo(p, now, call).value;
            && call.id in p.d.records && call.id in q.d.records
            && q.d == Store(p.d, call.id, q.d.records[call.id])
            && RecordSound(q.d.records[call.id], now)
            && q.d.records[call.id].id == call.id
            && q.d.records[call.id].sender == p.d.records[call.id].sender
            && q.d.records[call.id].recipient == p.d.records[call.id].recipient
  {
    assert RecordSound(p.d.records[call.id], now);
    assert Tied(p.d.records[call.id], p.v, call.id);
  }

  /** What a call on one delivery can change in its record. */
  lemma StepFields(p: Pair, now: nat, call: DeliveryCall)
    requires !call.CreateOne? && !call.CreateMany? && DeliveryDo(p, now, call).Ok?
    ensures var q := DeliveryDo(p, now, call).value;
            && call.id in p.d.records && call.id in q.d.records &&
            var r, s := p.d.records[call.id], q.d.records[call.id];
            && s.id == r.id && s.sender == r.sender && s.recipient == r.recipient && s.createdAt == r.createdAt
            && (r.status != Pending ==> s.metadata == r.metadata && s.driver == r.driver && s.status != Pending)
  {
  }

  predicate IsUnderWay(s: DeliveryStatus) {
    s == Pending || s == Active || s == InTransit
  }

  /** Steps that stay within the delivery contract keep the delivery under way. */
  lemma LocalStepsUnderWay(p: Pair, now: nat, call: DeliveryCall)
    requires (call.EditMetadata? || call.Assign? || call.StartTransit?) && DeliveryDo(p, now, call).Ok?
    ensures var q := DeliveryDo(p, now, call).value;
            && q.v == p.v && call.id in p.d.records && call.id in q.d.records
            && IsUnderWay(p.d.records[call.id].status) && IsUnderWay(q.d.records[call.id].status)
  {
  }

  /** Every committed call keeps the delivery contract's books. */
  lemma DeliveryStepInv(p: Pair, now: nat, call: DeliveryCall)
    requires DeliveryInv(p.d, now) && AllTied(p)
    ensures DeliveryInv(DeliveryDo(p, now, call).OrElse(p).d, now)
  {
    if DeliveryDo(p, now, call).Ok? {
      match call
      case CreateOne(sender, recipient, metadata) => AddKeepsInv(p.d, now, sender, recipient, metadata);
      case CreateMany(sender, recipient, list) =>
        AddAllKeepsInv(p.d, now, sender, recipient, list);
        TouchKeepsInv(AddAll(p.d, now, sender, recipient, list).value, now, sender, recipient);
      case _ =>
        StepStoresSound(p, now, call);
        StoreKeepsInv(p.d, now, call.id, DeliveryDo(p, now, call).value.d.records[call.id]);
    }
  }

  /** As time passes the books stay in order. */
  lemma LaterStillInv(d: DeliveryState, now: nat, later: nat)
    requires DeliveryInv(d, now) && now <= later
    ensures DeliveryInv(d, later)
  {
  }

  /** The driver check at confirmation never fires in a reachable state. */
  lemma ConfirmCheckNeverFires(p: Pair, now: nat, recipient: Address, id: nat)
    requires DeliveryInv(p.d, now)
    ensures DoConfirm(p, now, recipient, id) != Err(InvalidRecord)
  {
    if id in p.d.records {
      assert RecordSound(p.d.records[id], now);
    }
  }

  // ── A batch against single calls ────────────────────────────────────────────

  function CreateEach(d: DeliveryState, now: nat, sender: Address, recipient: Address, list: seq<Metadata>): Result<DeliveryState>
    decreases |list|
  {
    if list == [] then Ok(d)
    else
      var e :- CreateEach(d, now, sender, recipient, list[..|list| - 1]);
      Create(e, now, sender, recipient, list[|list| - 1])
  }

  lemma {:induction false} AddAllIsCreateEach(d: DeliveryState, now: nat, sender: Address, recipient: Address, list: seq<Metadata>)
    requires forall i :: 0 <= i < |list| ==> ValidMetadata(list[i])
    ensures AddAll(d, now, sender, recipient, list) == CreateEach(d, now, sender, recipient, list)
    decreases |list|
  {
    if list != [] {
      AddAllIsCreateEach(d, now, sender, recipient, list[..|list| - 1]);
    }
  }

  lemma {:induction false} AddAllCounts(d: DeliveryState, now: nat, sender: Address, recipient: Address, list: seq<Metadata>)
    requires d.counter <= U64_MAX
    ensures AddAll(d, now, sender, recipient, list).Ok? <==> d.counter + |list| <= U64_MAX
    ensures AddAll(d, now, sender, recipient, list).Ok? ==>
              AddAll(d, now, sender, recipient, list).value.counter == d.counter + |list|
    decreases |list|
  {
    if list != [] {
      AddAllCounts(d, now, sender, recipient, list[..|list| - 1]);
    }
  }

  /** For valid metadata a batch leaves what as many single calls leave, and fails when they do; its
      ids are the next ones in a row. */
  lemma BatchIsSingleCalls(d: DeliveryState, now: nat, sender: Address, recipient: Address, list: seq<Metadata>)
    requires d.counter <= U64_MAX && |list| <= MAX_BATCH_SIZE
    requires forall i :: 0 <= i < |list| ==> ValidMetadata(list[i])
    ensures match CreateAll(d, now, sender, recipient, list)
            case Err(e) => CreateEach(d, now, sender, recipient, list) == Err(e) && d.counter + |list| > U64_MAX
            case Ok(b) =>
              CreateEach(d, now, sender, recipient, list).Ok? &&
              var c := CreateEach(d, now, sender, recipient, list).value;
              && b.counter == c.counter == d.counter + |list| && b.records == c.records
              && (forall key :: Ids(b.index, key) == Ids(c.index, key))
  {
    AddAllIsCreateEach(d, now, sender, recipient, list);
    AddAllCounts(d, now, sender, recipient, list);
  }
}
