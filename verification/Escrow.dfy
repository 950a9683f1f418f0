/** The escrow contract's storage, and what each entry point does to it and to the token ledger. */
module Escrow {
  import opened Prelude
  import opened Token
  import opened Fees
  import Fleet

  const MAX_BATCH_SIZE: nat := 100
  const ESCROW_EXPIRY: nat := 30 * 24 * 60 * 60

  datatype EscrowStatus = Locked | Holdback | Released | Refunded | Paused | Split

  datatype EscrowRecord = EscrowRecord(
    sender: Address, recipient: Address, driver: Address, token: Address, amount: int,
    status: EscrowStatus, createdAt: nat, expiresAt: Option<nat>,
    disputedBy: Option<Address>, disputedAt: Option<nat>, fleetId: Option<nat>)

  /** Keys of the three secondary indexes. */
  datatype IndexKey = BySender(address: Address) | ByRecipient(address: Address) | ByDriver(address: Address)

  type Index = map<IndexKey, seq<nat>>

  datatype EscrowState = EscrowState(
    admin: Address, token: Address, feeBps: nat, paused: bool,
    fleetConfigured: bool, disputeContract: Option<Address>, tiers: Option<seq<VolumeTier>>,
    records: map<nat, EscrowRecord>, index: Index,
    totalLocked: map<Address, int>, senderVolume: map<Address, nat>)

  /** History the contract does not store: creation order, which escrows came from a batch,
      and every payment made for each escrow. No entry point reads it. */
  datatype Audit = Audit(created: seq<nat>, batched: set<nat>, paid: map<nat, seq<Payment>>)

  /** The escrow contract together with the token ledger that holds its money. */
  datatype Vault = Vault(e: EscrowState, ledger: Ledger, audit: Audit)

  datatype BatchItem = BatchItem(id: nat, driver: Address, amount: int)

  datatype EscrowCall =
    | CreateEscrow(sender: Address, recipient: Address, driver: Address, id: nat, token: Address, amount: int, fleetId: Option<nat>)
    | CreateBatch(sender: Address, recipient: Address, token: Address, items: seq<BatchItem>)
    | MarkHoldback(caller: Address, id: nat)
    | Release(caller: Address, id: nat)
    | Refund(caller: Address, id: nat)
    | RaiseDispute(caller: Address, id: nat)
    | ResolveDispute(caller: Address, id: nat, toDriver: bool)
    | ResolveSplit(caller: Address, id: nat, senderBps: nat)
    | ReleaseHoldback(caller: Address, id: nat)
    | FreezeFunds(caller: Address, id: nat)
    | ReclaimExpired(id: nat)
    | Sweep(caller: Address, token: Address, recipient: Address)
    | UpdateFee(caller: Address, bps: nat)
    // Any outcome of the pause switch, the address setters, the tier setter and the admin handover.
    | Reconfigure(admin: Address, paused: bool, fleetConfigured: bool, disputeContract: Option<Address>, tiers: Option<seq<VolumeTier>>)
    // Somebody moves tokens without the escrow contract's involvement.
    | TokenTransfer(token: Address, from: Address, to: Address, amount: int)

  // ── Reading the storage ─────────────────────────────────────────────────────

  function Ids(index: Index, key: IndexKey): seq<nat> {
    if key in index then index[key] else []
  }

  function TotalLocked(e: EscrowState, token: Address): int {
    if token in e.totalLocked then e.totalLocked[token] else 0
  }

  function Volume(e: EscrowState, sender: Address): nat {
    if sender in e.senderVolume then e.senderVolume[sender] else 0
  }

  function Load(e: EscrowState, id: nat): Result<EscrowRecord> {
    if id in e.records then Ok(e.records[id]) else Err(NotFound)
  }

  predicate IsLive(s: EscrowStatus) {
    s == Locked || s == Holdback || s == Paused
  }

  function Held(v: Vault, token: Address): int {
    Balance(v.ledger, token, EscrowAddress)
  }

  // ── Funding ─────────────────────────────────────────────────────────────────

  function NewRecord(now: nat, sender: Address, recipient: Address, driver: Address,
                     token: Address, amount: int, fleetId: Option<nat>): EscrowRecord {
    EscrowRecord(sender, recipient, driver, token, amount, Locked, now,
                 Some(Min(U64_MAX, now + ESCROW_EXPIRY)), None, None, fleetId)
  }

  function AddTo(index: Index, key: IndexKey, id: nat): Index {
    index[key := Ids(index, key) + [id]]
  }

  function Indexed(index: Index, id: nat, r: EscrowRecord): Index {
    AddTo(AddTo(AddTo(index, BySender(r.sender), id), ByRecipient(r.recipient), id), ByDriver(r.driver), id)
  }

  /** The step both ways of creating an escrow share: take the money, store and index the record. */
  function Lock(v: Vault, id: nat, r: EscrowRecord): Result<Vault> {
    if id in v.e.records then Err(Duplicate)
    else
      var ledger :- Transfer(v.ledger, r.token, r.sender, EscrowAddress, r.amount);
      Ok(Vault(v.e.(records := v.e.records[id := r], index := Indexed(v.e.index, id, r)),
               ledger,
               v.audit.(created := v.audit.created + [id], paid := v.audit.paid[id := []])))
  }

  lemma LockParts(v: Vault, id: nat, r: EscrowRecord)
    requires id !in v.e.records
    ensures match Transfer(v.ledger, r.token, r.sender, EscrowAddress, r.amount)
            case Err(e) => Lock(v, id, r) == Err(e)
            case Ok(ledger) =>
              Lock(v, id, r) == Ok(Vault(v.e.(records := v.e.records[id := r], index := Indexed(v.e.index, id, r)), ledger,
                                         v.audit.(created := v.audit.created + [id], paid := v.audit.paid[id := []])))
  {
  }

  function AddLocked(e: EscrowState, token: Address, amount: int): EscrowState {
    e.(totalLocked := e.totalLocked[token := Saturate(TotalLocked(e, token) + amount)])
  }

  function Create(v: Vault, now: nat, sender: Address, recipient: Address, driver: Address, id: nat,
                  token: Address, amount: int, fleetId: Option<nat>): Result<Vault> {
    if sender == EscrowAddress then Err(Unauthorized)
    else if amount <= 0 then Err(InvalidAmount)
    else if id in v.e.records then Err(Duplicate)
    else if token != v.e.token then Err(InvalidToken)
    else
      var w :- Lock(v, id, NewRecord(now, sender, recipient, driver, token, amount, fleetId));
      Ok(w.(e := AddLocked(w.e, token, amount)))
  }

  /** A creation whose checks pass is a lock and a raised total. */
  lemma CreateParts(v: Vault, now: nat, sender: Address, recipient: Address, driver: Address, id: nat,
                    token: Address, amount: int, fleetId: Option<nat>)
    requires sender != EscrowAddress && amount > 0 && id !in v.e.records && token == v.e.token
    ensures match Lock(v, id, NewRecord(now, sender, recipient, driver, token, amount, fleetId))
            case Err(e) => Create(v, now, sender, recipient, driver, id, token, amount, fleetId) == Err(e)
            case Ok(w) =>
              Create(v, now, sender, recipient, driver, id, token, amount, fleetId) == Ok(w.(e := AddLocked(w.e, token, amount)))
  {
  }

  function LockItem(v: Vault, now: nat, sender: Address, recipient: Address, token: Address, item: BatchItem): Result<Vault> {
    var w :- Lock(v, item.id, NewRecord(now, sender, recipient, item.driver, token, item.amount, None));
    Ok(w.(audit := w.audit.(batched := w.audit.batched + {item.id})))
  }

  /** The items of a batch, one after the other. */
  function LockAll(v: Vault, now: nat, sender: Address, recipient: Address, token: Address, items: seq<BatchItem>): Result<Vault>
    decreases |items|
  {
    if items == [] then Ok(v)
    else
      var w :- LockAll(v, now, sender, recipient, token, items[..|items| - 1]);
      LockItem(w, now, sender, recipient, token, items[|items| - 1])
  }

  /** Writing a list back under its own key. */
  function Touch(index: Index, key: IndexKey): Index {
    index[key := Ids(index, key)]
  }

  function CreateAll(v: Vault, now: nat, sender: Address, recipient: Address, token: Address, items: seq<BatchItem>): Result<Vault> {
    if sender == EscrowAddress then Err(Unauthorized)
    else if |items| > MAX_BATCH_SIZE then Err(InvalidState)
    else
      var w :- LockAll(v, now, sender, recipient, token, items);
      Ok(w.(e := w.e.(index := Touch(Touch(w.e.index, BySender(sender)), ByRecipient(recipient)))))
  }

  // ── Settling ────────────────────────────────────────────────────────────────

  /** At most two payments; a payment of nothing is not made. */
  function Shares(first: Address, a: int, second: Address, b: int): seq<Payment> {
    (if a > 0 then [Payment(first, a)] else []) + (if b > 0 then [Payment(second, b)] else [])
  }

  lemma PayOne(l: Ledger, token: Address, p: Payment)
    ensures PayAll(l, token, [p]) == Transfer(l, token, EscrowAddress, p.to, p.amount)
  {
    assert [p][1..] == [];
  }

  /** Paying a two-way share list is one optional transfer after another. */
  lemma SharesPaid(l: Ledger, token: Address, first: Address, a: int, second: Address, b: int)
    ensures PayAll(l, token, Shares(first, a, second, b)) ==
            var afterFirst := if a > 0 then Transfer(l, token, EscrowAddress, first, a) else Ok(l);
            if afterFirst.Err? then afterFirst
            else if b > 0 then Transfer(afterFirst.value, token, EscrowAddress, second, b) else afterFirst
  {
    var tail := if b > 0 then [Payment(second, b)] else [];
    var afterFirst := if a > 0 then Transfer(l, token, EscrowAddress, first, a) else Ok(l);
    if a > 0 {
      assert Shares(first, a, second, b) == [Payment(first, a)] + tail;
      assert Shares(first, a, second, b)[1..] == tail;
    } else {
      assert Shares(first, a, second, b) == tail;
    }
    if b > 0 && afterFirst.Ok? {
      PayOne(afterFirst.value, token, Payment(second, b));
    }
  }

  function SplitPayments(r: EscrowRecord, senderBps: nat): seq<Payment> {
    Shares(r.sender, SenderShare(r.amount, senderBps), r.driver, DriverShare(r.amount, senderBps))
  }

  function ReleaseShares(amount: int, feeBps: nat, payee: Address, admin: Address): seq<Payment> {
    Shares(payee, SatSub(amount, CalculateFee(amount, feeBps)), admin, CalculateFee(amount, feeBps))
  }

  /** Where the driver's part goes: to the fleet's payout address when the escrow names a fleet. */
  function PayoutTo(fleetConfigured: bool, fleet: Fleet.FleetState, driver: Address, amount: int, fleetId: Option<nat>): Result<Address> {
    if amount > 0 && fleetConfigured && fleetId.Some?
    then Fleet.PayoutAddress(fleet, driver, fleetId.value)
    else Ok(driver)
  }

  function Payee(e: EscrowState, fleet: Fleet.FleetState, r: EscrowRecord): Result<Address> {
    PayoutTo(e.fleetConfigured, fleet, r.driver, SatSub(r.amount, CalculateFee(r.amount, e.feeBps)), r.fleetId)
  }

  /** An escrow closed after its payments: final status, lower running total, the money as paid. */
  function ClosedAs(v: Vault, id: nat, status: EscrowStatus, ps: seq<Payment>, ledger: Ledger): Vault
    requires id in v.e.records
  {
    var r := v.e.records[id];
    var earlier := if id in v.audit.paid then v.audit.paid[id] else [];
    Vault(AddLocked(v.e.(records := v.e.records[id := r.(status := status)]), r.token, -r.amount),
          ledger,
          v.audit.(paid := v.audit.paid[id := earlier + ps]))
  }

  /** Pays an escrow out and closes it with the given final status. */
  function Close(v: Vault, id: nat, status: EscrowStatus, ps: seq<Payment>): Result<Vault>
    requires id in v.e.records
  {
    var ledger :- PayAll(v.ledger, v.e.records[id].token, ps);
    Ok(ClosedAs(v, id, status, ps, ledger))
  }

  /** The sender's volume counter, raised for one more paid-out delivery. */
  function Counted(v: Vault, id: nat): Vault
    requires id in v.e.records
  {
    var sender := v.e.records[id].sender;
    v.(e := v.e.(senderVolume := v.e.senderVolume[sender := Min(U32_MAX, Volume(v.e, sender) + 1)]))
  }

  function ReleasePayments(v: Vault, id: nat, payee: Address): seq<Payment>
    requires id in v.e.records
  {
    ReleaseShares(v.e.records[id].amount, v.e.feeBps, payee, v.e.admin)
  }

  /** The payout all three release routes share. */
  function PayDriver(v: Vault, fleet: Fleet.FleetState, id: nat): Result<Vault>
    requires id in v.e.records
  {
    var payee :- Payee(v.e, fleet, v.e.records[id]);
    Close(Counted(v, id), id, Released, ReleasePayments(v, id, payee))
  }

  /** What closing leaves behind besides the money. */
  lemma CloseKeeps(v: Vault, id: nat, status: EscrowStatus, ps: seq<Payment>)
    requires id in v.e.records && Close(v, id, status, ps).Ok?
    ensures var w := Close(v, id, status, ps).value;
            && w.e == v.e.(records := w.e.records, totalLocked := w.e.totalLocked)
            && w.e.records == v.e.records[id := v.e.records[id].(status := status)]
            && w.audit == v.audit.(paid := v.audit.paid[id := (if id in v.audit.paid then v.audit.paid[id] else []) + ps])
            && PayAll(v.ledger, v.e.records[id].token, ps) == Ok(w.ledger)
  {
  }

  /** A payout that goes through is a counted closing of the escrow. */
  lemma PayDriverParts(v: Vault, fleet: Fleet.FleetState, id: nat) returns (u: Vault, ps: seq<Payment>)
    requires id in v.e.records && PayDriver(v, fleet, id).Ok?
    ensures Payee(v.e, fleet, v.e.records[id]).Ok? && ps == ReleasePayments(v, id, Payee(v.e, fleet, v.e.records[id]).value)
    ensures u == Counted(v, id) && u == v.(e := v.e.(senderVolume := u.e.senderVolume))
    ensures PayDriver(v, fleet, id) == Close(u, id, Released, ps)
  {
    u, ps := Counted(v, id), ReleasePayments(v, id, Payee(v.e, fleet, v.e.records[id]).value);
  }

  /** How a payout can end: no payee, not enough money, or closed. */
  lemma PayDriverCases(v: Vault, fleet: Fleet.FleetState, id: nat)
    requires id in v.e.records
    ensures match Payee(v.e, fleet, v.e.records[id])
            case Err(e) => PayDriver(v, fleet, id) == Err(e)
            case Ok(payee) =>
              match PayAll(v.ledger, v.e.records[id].token, ReleasePayments(v, id, payee))
              case Err(e) => PayDriver(v, fleet, id) == Err(e)
              case Ok(ledger) =>
                PayDriver(v, fleet, id) == Ok(ClosedAs(Counted(v, id), id, Released, ReleasePayments(v, id, payee), ledger))
  {
  }

  /** The refund all routes share. */
  function ReturnToSender(v: Vault, id: nat): Result<Vault>
    requires id in v.e.records
  {
    var r := v.e.records[id];
    if Held(v, r.token) < r.amount then Err(InsufficientFunds)
    else Close(v, id, Refunded, [Payment(r.sender, r.amount)])
  }

  function Store(v: Vault, id: nat, r: EscrowRecord): Vault {
    v.(e := v.e.(records := v.e.records[id := r]))
  }

  // ── The entry points ────────────────────────────────────────────────────────

  function DoMarkHoldback(v: Vault, caller: Address, id: nat): Result<Vault> {
    var r :- Load(v.e, id);
    if caller != r.recipient then Err(Unauthorized)
    else if r.status != Locked then Err(InvalidState)
    else Ok(Store(v, id, r.(status := Holdback)))
  }

  function DoRelease(v: Vault, fleet: Fleet.FleetState, caller: Address, id: nat): Result<Vault> {
    if v.e.paused then Err(ProtocolPaused)
    else
      var r :- Load(v.e, id);
      if caller != v.e.admin && caller != r.recipient then Err(Unauthorized)
      else if r.status != Locked then Err(InvalidState)
      else if Held(v, r.token) < r.amount then Err(InsufficientFunds)
      else PayDriver(v, fleet, id)
  }

  function DoRefund(v: Vault, caller: Address, id: nat): Result<Vault> {
    if v.e.paused then Err(ProtocolPaused)
    else
      var r :- Load(v.e, id);
      if caller != v.e.admin && caller != r.sender then Err(Unauthorized)
      else if !IsLive(r.status) then Err(InvalidState)
      else ReturnToSender(v, id)
  }

  function DoRaiseDispute(v: Vault, now: nat, caller: Address, id: nat): Result<Vault> {
    var r :- Load(v.e, id);
    if caller != r.sender && caller != r.recipient && caller != r.driver then Err(Unauthorized)
    else if r.status != Locked then Err(InvalidState)
    else Ok(Store(v, id, r.(status := Paused, disputedBy := Some(caller), disputedAt := Some(now))))
  }

  function DoResolveDispute(v: Vault, fleet: Fleet.FleetState, caller: Address, id: nat, toDriver: bool): Result<Vault> {
    if v.e.paused then Err(ProtocolPaused)
    else if caller != v.e.admin then Err(Unauthorized)
    else
      var r :- Load(v.e, id);
      if r.status != Paused then Err(InvalidState)
      else if toDriver then PayDriver(v, fleet, id)
      else ReturnToSender(v, id)
  }

  function DoResolveSplit(v: Vault, caller: Address, id: nat, senderBps: nat): Result<Vault> {
    if v.e.paused then Err(ProtocolPaused)
    else if caller != v.e.admin then Err(Unauthorized)
    else if senderBps > BPS then Err(InvalidFee)
    else
      var r :- Load(v.e, id);
      if r.status != Paused then Err(InvalidState)
      else if Held(v, r.token) < r.amount then Err(InsufficientFunds)
      else Close(v, id, Split, SplitPayments(r, senderBps))
  }

  function DoReleaseHoldback(v: Vault, fleet: Fleet.FleetState, caller: Address, id: nat): Result<Vault> {
    var r :- Load(v.e, id);
    if caller != v.e.admin && caller != r.recipient then Err(Unauthorized)
    else if r.status != Holdback then Err(InvalidState)
    else if Held(v, r.token) < r.amount then Err(InsufficientFunds)
    else PayDriver(v, fleet, id)
  }

  function DoFreezeFunds(v: Vault, now: nat, caller: Address, id: nat): Result<Vault> {
    if v.e.disputeContract.None? then Err(NotInitialized)
    else if caller != v.e.disputeContract.value then Err(Unauthorized)
    else
      var r :- Load(v.e, id);
      if r.status == Locked || r.status == Holdback
      then Ok(Store(v, id, r.(status := Paused, disputedAt := Some(now))))
      else Ok(v)
  }

  function DoReclaimExpired(v: Vault, now: nat, id: nat): Result<Vault> {
    var r :- Load(v.e, id);
    if r.status != Locked then Err(InvalidState)
    else if r.expiresAt.None? || now <= r.expiresAt.value then Err(InvalidState)
    else ReturnToSender(v, id)
  }

  function DoSweep(v: Vault, caller: Address, token: Address, recipient: Address): Result<Vault> {
    if caller != v.e.admin then Err(Unauthorized)
    else if Held(v, token) <= TotalLocked(v.e, token) then Ok(v)
    else
      var ledger :- Transfer(v.ledger, token, EscrowAddress, recipient, SatSub(Held(v, token), TotalLocked(v.e, token)));
      Ok(v.(ledger := ledger))
  }

  function DoUpdateFee(v: Vault, caller: Address, bps: nat): Result<Vault> {
    if caller != v.e.admin then Err(Unauthorized)
    else if bps > MAX_PLATFORM_FEE_BPS then Err(InvalidFee)
    else Ok(v.(e := v.e.(feeBps := bps)))
  }

  function DoTokenTransfer(v: Vault, token: Address, from: Address, to: Address, amount: int): Result<Vault> {
    if from == EscrowAddress then Err(Unauthorized)
    else
      var ledger :- Transfer(v.ledger, token, from, to, amount);
      Ok(v.(ledger := ledger))
  }

  function EscrowDo(v: Vault, fleet: Fleet.FleetState, now: nat, call: EscrowCall): Result<Vault> {
    match call
    case CreateEscrow(sender, recipient, driver, id, token, amount, fleetId) =>
      Create(v, now, sender, recipient, driver, id, token, amount, fleetId)
    case CreateBatch(sender, recipient, token, items) => CreateAll(v, now, sender, recipient, token, items)
    case MarkHoldback(caller, id) => DoMarkHoldback(v, caller, id)
    case Release(caller, id) => DoRelease(v, fleet, caller, id)
    case Refund(caller, id) => DoRefund(v, caller, id)
    case RaiseDispute(caller, id) => DoRaiseDispute(v, now, caller, id)
    case ResolveDispute(caller, id, toDriver) => DoResolveDispute(v, fleet, caller, id, toDriver)
    case ResolveSplit(caller, id, senderBps) => DoResolveSplit(v, caller, id, senderBps)
    case ReleaseHoldback(caller, id) => DoReleaseHoldback(v, fleet, caller, id)
    case FreezeFunds(caller, id) => DoFreezeFunds(v, now, caller, id)
    case ReclaimExpired(id) => DoReclaimExpired(v, now, id)
    case Sweep(caller, token, recipient) => DoSweep(v, caller, token, recipient)
    case UpdateFee(caller, bps) => DoUpdateFee(v, caller, bps)
    case Reconfigure(admin, paused, fleetConfigured, disputeContract, tiers) =>
      Ok(v.(e := v.e.(admin := admin, paused := paused, fleetConfigured := fleetConfigured,
                      disputeContract := disputeContract, tiers := tiers)))
    case TokenTransfer(token, from, to, amount) => DoTokenTransfer(v, token, from, to, amount)
  }

  // ── Runs ────────────────────────────────────────────────────────────────────

  /** One call: when it happens, what the fleet registry says then, and the call itself. */
  datatype EscrowTick = EscrowTick(now: nat, fleet: Fleet.FleetState, call: EscrowCall)

  /** A call that panics is rolled back whole. */
  function EscrowStep(v: Vault, tick: EscrowTick): Vault {
    EscrowDo(v, tick.fleet, tick.now, tick.call).OrElse(v)
  }

  function EscrowRun(v: Vault, ticks: seq<EscrowTick>): Vault
    decreases |ticks|
  {
    if ticks == [] then v else EscrowStep(EscrowRun(v, ticks[..|ticks| - 1]), ticks[|ticks| - 1])
  }

  // ── The kinds of calls ──────────────────────────────────────────────────────

  predicate IsFunding(call: EscrowCall) {
    call.CreateEscrow? || call.CreateBatch?
  }

  /** Calls that only restamp a live escrow. */
  predicate IsStamping(call: EscrowCall) {
    call.MarkHoldback? || call.RaiseDispute? || call.FreezeFunds?
  }

  predicate IsSettling(call: EscrowCall) {
    call.Release? || call.ReleaseHoldback? || call.ResolveDispute? || call.Refund? || call.ReclaimExpired? || call.ResolveSplit?
  }

  /** The three ways to have an escrow paid out. */
  predicate IsRelease(call: EscrowCall) {
    call.Release? || call.ReleaseHoldback? || (call.ResolveDispute? && call.toDriver)
  }

  function FinalStatus(call: EscrowCall): EscrowStatus
    requires IsSettling(call)
  {
    if IsRelease(call) then Released else if call.ResolveSplit? then Split else Refunded
  }

  lemma ReleaseIsClose(v: Vault, tick: EscrowTick) returns (u: Vault, ps: seq<Payment>)
    requires IsRelease(tick.call) && EscrowDo(v, tick.fleet, tick.now, tick.call).Ok?
    ensures var id := tick.call.id;
            && id in v.e.records && IsLive(v.e.records[id].status)
            && u == Counted(v, id) && u == v.(e := v.e.(senderVolume := u.e.senderVolume))
            && EscrowDo(v, tick.fleet, tick.now, tick.call) == Close(u, id, Released, ps)
            && Payee(v.e, tick.fleet, v.e.records[id]).Ok?
            && ps == ReleasePayments(v, id, Payee(v.e, tick.fleet, v.e.records[id]).value)
  {
    assert EscrowDo(v, tick.fleet, tick.now, tick.call) == PayDriver(v, tick.fleet, tick.call.id);
    u, ps := PayDriverParts(v, tick.fleet, tick.call.id);
  }

  /** Whatever its route, a settling call that commits closes the live escrow it names, with the
      payments of its outcome. */
  lemma SettlingIsClose(v: Vault, tick: EscrowTick) returns (u: Vault, ps: seq<Payment>)
    requires IsSettling(tick.call) && EscrowDo(v, tick.fleet, tick.now, tick.call).Ok?
    ensures var id := tick.call.id;
            && id in v.e.records && IsLive(v.e.records[id].status)
            && u == (if IsRelease(tick.call) then Counted(v, id) else v) && u == v.(e := v.e.(senderVolume := u.e.senderVolume))
            && EscrowDo(v, tick.fleet, tick.now, tick.call) == Close(u, id, FinalStatus(tick.call), ps)
            && match FinalStatus(tick.call)
               case Refunded => ps == [Payment(v.e.records[id].sender, v.e.records[id].amount)]
               case Split => tick.call.ResolveSplit? && tick.call.senderBps <= BPS && ps == SplitPayments(v.e.records[id], tick.call.senderBps)
               case _ => Payee(v.e, tick.fleet, v.e.records[id]).Ok?
                         && ps == ReleasePayments(v, id, Payee(v.e, tick.fleet, v.e.records[id]).value)
  {
    if IsRelease(tick.call) {
      u, ps := ReleaseIsClose(v, tick);
    } else {
      var r := v.e.records[tick.call.id];
      u, ps := v, if tick.call.ResolveSplit? then SplitPayments(r, tick.call.senderBps) else [Payment(r.sender, r.amount)];
    }
  }

  /** A stamping call that commits rewrites status and dispute stamps of one live escrow, or nothing. */
  lemma StampingIsStore(v: Vault, tick: EscrowTick) returns (r: EscrowRecord)
    requires IsStamping(tick.call) && EscrowDo(v, tick.fleet, tick.now, tick.call).Ok?
    ensures var id, w := tick.call.id, EscrowDo(v, tick.fleet, tick.now, tick.call).value;
            && id in v.e.records
            && (w == v || (w == Store(v, id, r) && IsLive(v.e.records[id].status)))
            && r.status in {Holdback, Paused}
            && r == v.e.records[id].(status := r.status, disputedBy := r.disputedBy, disputedAt := r.disputedAt)
  {
    var w := EscrowDo(v, tick.fleet, tick.now, tick.call).value;
    r := if w == v then v.e.records[tick.call.id].(status := Paused) else w.e.records[tick.call.id];
  }

  lemma MoneyCallsKeep(v: Vault, tick: EscrowTick)
    requires tick.call.Sweep? || tick.call.TokenTransfer?
    ensures EscrowStep(v, tick) == v.(ledger := EscrowStep(v, tick).ledger)
  {
  }

  lemma SettingCallsKeep(v: Vault, tick: EscrowTick)
    requires tick.call.UpdateFee? || tick.call.Reconfigure?
    ensures var w := EscrowStep(v, tick);
            && w.audit == v.audit && w.ledger == v.ledger
            && v.e == w.e.(admin := v.e.admin, paused := v.e.paused, fleetConfigured := v.e.fleetConfigured,
                           disputeContract := v.e.disputeContract, tiers := v.e.tiers, feeBps := v.e.feeBps)
            && w.e.disputeContract == if tick.call.Reconfigure? then tick.call.disputeContract else v.e.disputeContract
  {
  }

  /** The remaining calls leave escrows, lists, totals and counters alone. */
  lemma OthersKeepRecords(v: Vault, tick: EscrowTick)
    requires !IsFunding(tick.call) && !IsStamping(tick.call) && !IsSettling(tick.call)
    ensures var w := EscrowStep(v, tick);
            && w.audit == v.audit && w.e.records == v.e.records && w.e.index == v.e.index
            && w.e.totalLocked == v.e.totalLocked && w.e.senderVolume == v.e.senderVolume
            && w.e.disputeContract == (if tick.call.Reconfigure? then tick.call.disputeContract else v.e.disputeContract)
            && (!tick.call.Sweep? && !tick.call.TokenTransfer? ==> w.ledger == v.ledger)
  {
    if tick.call.Sweep? || tick.call.TokenTransfer? {
      MoneyCallsKeep(v, tick);
    } else {
      SettingCallsKeep(v, tick);
    }
  }

  /** The vault right after initialisation, over any existing token balances. */
  ghost predicate Initial(v: Vault) {
    && v.e.records == map[] && v.e.index == map[] && v.e.totalLocked == map[] && v.e.senderVolume == map[]
    && v.e.feeBps <= MAX_PLATFORM_FEE_BPS
    && v.audit == Audit([], {}, map[])
    && SoundLedger(v.ledger)
  }
}
