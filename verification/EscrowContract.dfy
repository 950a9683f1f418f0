/** The escrow contract as an object whose storage its entry points overwrite, moving money on the
    token ledger and asking the fleet contract for payout addresses. Each method does what the
    contract does, step by step, and is proved equal to the Escrow function of the old state. */
module EscrowContracts {
  import opened Prelude
  import opened Token
  import opened Fees
  import opened Escrow
  import opened EscrowBatch
  import Fleet
  import FleetManagement

  lemma LockItemParts(v: Vault, now: nat, sender: Address, recipient: Address, token: Address, item: BatchItem)
    requires item.id !in v.e.records
    ensures var record := NewRecord(now, sender, recipient, item.driver, token, item.amount, None);
            match Transfer(v.ledger, token, sender, EscrowAddress, item.amount)
            case Err(e) => LockItem(v, now, sender, recipient, token, item) == Err(e)
            case Ok(money) =>
              LockItem(v, now, sender, recipient, token, item)
              == Ok(Vault(v.e.(records := v.e.records[item.id := record], index := Indexed(v.e.index, item.id, record)), money,
                          Audit(v.audit.created + [item.id], v.audit.batched + {item.id}, v.audit.paid[item.id := []])))
  {
    LockParts(v, item.id, NewRecord(now, sender, recipient, item.driver, token, item.amount, None));
  }

  class EscrowContract {
    const ledger: TokenLedger

    var admin: Address
    var token: Address
    var feeBps: nat
    var paused: bool
    var fleet: FleetManagement.FleetContract?
    var disputeContract: Option<Address>
    var tiers: Option<seq<VolumeTier>>
    var records: map<nat, EscrowRecord>
    var index: Index
    var totalLocked: map<Address, int>
    var senderVolume: map<Address, nat>
    ghost var audit: Audit

    function State(): EscrowState
      reads this
    {
      EscrowState(admin, token, feeBps, paused, fleet != null, disputeContract, tiers,
                  records, index, totalLocked, senderVolume)
    }

    ghost function View(): Vault
      reads this, ledger
    {
      Vault(State(), ledger.balances, audit)
    }

    /** What the configured fleet contract says; nothing is asked when none is configured. */
    ghost function Registry(): Fleet.FleetState
      reads this, fleet
    {
      if fleet == null then Fleet.EmptyFleets(admin) else fleet.State()
    }

    /** The new state and the reported result are those of the specified outcome. */
    ghost predicate Reports(outcome: Result<Vault>, before: Vault, r: Result<Unit>)
      reads this, ledger
    {
      match outcome
      case Ok(after) => r == Ok(Unit) && View() == after
      case Err(e) => r == Err(e) && View() == before
    }

    constructor (ledger: TokenLedger, admin: Address, token: Address, feeBps: nat)
      requires feeBps <= MAX_PLATFORM_FEE_BPS
      ensures this.ledger == ledger && fleet == null
      ensures State() == EscrowState(admin, token, feeBps, false, false, None, None, map[], map[], map[], map[])
      ensures audit == Audit([], {}, map[])
    {
      this.ledger, this.admin, this.token, this.feeBps := ledger, admin, token, feeBps;
      paused, fleet, disputeContract, tiers := false, null, None, None;
      records, index, totalLocked, senderVolume := map[], map[], map[], map[];
      audit := Audit([], {}, map[]);
    }

    /** The host discards the writes of a call that panicked. */
    method Rollback(saved: EscrowState, money: Ledger, ghost history: Audit)
      requires saved == State().(records := saved.records, index := saved.index,
                                 totalLocked := saved.totalLocked, senderVolume := saved.senderVolume)
      modifies `records, `index, `totalLocked, `senderVolume, `audit, ledger
      ensures View() == Vault(saved, money, history)
    {
      records, index := saved.records, saved.index;
      totalLocked, senderVolume := saved.totalLocked, saved.senderVolume;
      audit := history;
      ledger.Rollback(money);
    }

    method UpdatePlatformFee(caller: Address, bps: nat) returns (r: Result<Unit>)
      modifies `feeBps
      ensures Reports(DoUpdateFee(old(View()), caller, bps), old(View()), r)
    {
      if caller != admin {
        return Err(Unauthorized);
      }
      if bps > MAX_PLATFORM_FEE_BPS {
        return Err(InvalidFee);
      }
      feeBps := bps;
      return Ok(Unit);
    }

    method SetPaused(caller: Address, paused: bool) returns (r: Result<Unit>)
      modifies `paused
      ensures r == (if caller == admin then Ok(Unit) else Err(Unauthorized))
      ensures View() == old(View()).(e := old(State()).(paused := if caller == admin then paused else old(this.paused)))
    {
      if caller != admin {
        return Err(Unauthorized);
      }
      this.paused := paused;
      return Ok(Unit);
    }

    method SetFleetManagementContract(caller: Address, fleetContract: FleetManagement.FleetContract) returns (r: Result<Unit>)
      modifies `fleet
      ensures r == if caller == admin then Ok(Unit) else Err(Unauthorized)
      ensures fleet == if caller == admin then fleetContract else old(fleet)
      ensures View() == old(View()).(e := old(State()).(fleetConfigured := caller == admin || old(fleet) != null))
    {
      if caller != admin {
        return Err(Unauthorized);
      }
      fleet := fleetContract;
      return Ok(Unit);
    }

    method SetDisputeResolutionContract(caller: Address, dispute: Address) returns (r: Result<Unit>)
      modifies `disputeContract
      ensures r == if caller == admin then Ok(Unit) else Err(Unauthorized)
      ensures View() == old(View()).(e := old(State()).(disputeContract := if caller == admin then Some(dispute) else old(disputeContract)))
    {
      if caller != admin {
        return Err(Unauthorized);
      }
      disputeContract := Some(dispute);
      return Ok(Unit);
    }

    /** Any list is taken, ordered or not. */
    method SetVolumeTiers(caller: Address, list: seq<VolumeTier>) returns (r: Result<Unit>)
      modifies `tiers
      ensures r == if caller == admin then Ok(Unit) else Err(Unauthorized)
      ensures View() == old(View()).(e := old(State()).(tiers := if caller == admin then Some(list) else old(tiers)))
    {
      if caller != admin {
        return Err(Unauthorized);
      }
      tiers := Some(list);
      return Ok(Unit);
    }

    method AppendId(key: IndexKey, id: nat)
      modifies `index
      ensures index == AddTo(old(index), key, id)
    {
      var ids := if key in index then index[key] else [];
      ids := ids + [id];
      index := index[key := ids];
    }

    method IndexRecord(id: nat, record: EscrowRecord)
      modifies `index
      ensures index == Indexed(old(index), id, record)
    {
      AppendId(BySender(record.sender), id);
      AppendId(ByRecipient(record.recipient), id);
      AppendId(ByDriver(record.driver), id);
    }

    /** Takes the money, stores a fresh record and appends its id to the lists of the addresses it names. */
    method LockFunds(id: nat, record: EscrowRecord) returns (r: Result<Unit>)
      requires id !in records
      modifies `records, `index, `audit, ledger
      ensures Reports(Lock(old(View()), id, record), old(View()), r)
    {
      LockParts(View(), id, record);
      var _ :- ledger.Move(record.token, record.sender, EscrowAddress, record.amount);
      records := records[id := record];
      IndexRecord(id, record);
      audit := audit.(created := audit.created + [id], paid := audit.paid[id := []]);
      return Ok(Unit);
    }

    /** The expiry saturates at the end of time. */
    method FreshRecord(now: nat, sender: Address, recipient: Address, driver: Address, token: Address, amount: int, fleetId: Option<nat>)
      returns (record: EscrowRecord)
      ensures record == NewRecord(now, sender, recipient, driver, token, amount, fleetId)
    {
      var expiresAt := if now + ESCROW_EXPIRY > U64_MAX then U64_MAX else now + ESCROW_EXPIRY;
      return EscrowRecord(sender, recipient, driver, token, amount, Locked, now, Some(expiresAt), None, None, fleetId);
    }

    method CreateEscrow(now: nat, sender: Address, recipient: Address, driver: Address, id: nat,
                        token: Address, amount: int, fleetId: Option<nat>) returns (r: Result<Unit>)
      modifies `records, `index, `totalLocked, `audit, ledger
      ensures Reports(Create(old(View()), now, sender, recipient, driver, id, token, amount, fleetId), old(View()), r)
    {
      if sender == EscrowAddress {
        return Err(Unauthorized);
      }
      if amount <= 0 {
        return Err(InvalidAmount);
      }
      if id in records {
        return Err(Duplicate);
      }
      if token != this.token {
        return Err(InvalidToken);
      }
      r := FundEscrow(now, sender, recipient, driver, id, token, amount, fleetId);
    }

    /** What is left of a creation once its checks have passed. */
    method FundEscrow(now: nat, sender: Address, recipient: Address, driver: Address, id: nat,
                      token: Address, amount: int, fleetId: Option<nat>) returns (r: Result<Unit>)
      requires sender != EscrowAddress && amount > 0 && id !in records && token == this.token
      modifies `records, `index, `totalLocked, `audit, ledger
      ensures Reports(Create(old(View()), now, sender, recipient, driver, id, token, amount, fleetId), old(View()), r)
    {
      CreateParts(View(), now, sender, recipient, driver, id, token, amount, fleetId);
      var record := FreshRecord(now, sender, recipient, driver, token, amount, fleetId);
      var _ :- LockFunds(id, record);
      var current := if token in totalLocked then totalLocked[token] else 0;
      totalLocked := totalLocked[token := Saturate(current + amount)];
      return Ok(Unit);
    }

    /** The last loop of a batch: every cached driver list goes back to storage. */
    method WriteBack(lists: Index)
      modifies `index
      ensures index == old(index) + lists
    {
      var pending := lists.Keys;
      while pending != {}
        invariant pending <= lists.Keys
        invariant index == old(index) + (lists - pending)
      {
        var key :| key in pending;
        index := index[key := lists[key]];
        pending := pending - {key};
      }
      assert lists - {} == lists;
    }

    /** One round of the batch loop: the duplicate check, the transfer and the record. Storage agrees
        with the vault that single calls would have produced, but for the indexes still cached. */
    method LockBatchItem(now: nat, sender: Address, recipient: Address, token: Address, item: BatchItem, ghost done: Vault)
      returns (r: Result<Unit>)
      requires View() == done.(e := done.e.(index := index))
      modifies `records, `audit, ledger
      ensures match LockItem(done, now, sender, recipient, token, item)
              case Ok(after) => r == Ok(Unit) && View() == after.(e := after.e.(index := index))
              case Err(e) => r == Err(e)
    {
      if item.id in records {
        return Err(Duplicate);
      }
      LockItemParts(done, now, sender, recipient, token, item);
      var _ :- ledger.Move(token, sender, EscrowAddress, item.amount);
      var record := FreshRecord(now, sender, recipient, item.driver, token, item.amount, None);
      records := records[item.id := record];
      audit := Audit(audit.created + [item.id], audit.batched + {item.id}, audit.paid[item.id := []]);
      return Ok(Unit);
    }

    /** The batch loop. Storage ends up as single calls would have left it, but for the three kinds
        of index lists, which are still in the cache. */
    method LockItems(now: nat, sender: Address, recipient: Address, token: Address, items: seq<BatchItem>) returns (r: Result<Cache>)
      modifies `records, `audit, ledger
      ensures match LockAll(old(View()), now, sender, recipient, token, items)
              case Ok(done) => r.Ok? && View() == done.(e := done.e.(index := index))
                               && Faithful(index, done.e.index, sender, recipient, r.value)
              case Err(e) => r == Err(e)
    {
      ghost var start, done := View(), View();
      var cache := LoadCache(index, sender, recipient);
      FreshCacheFaithful(index, sender, recipient);
      for i := 0 to |items|
        invariant LockAll(start, now, sender, recipient, token, items[..i]) == Ok(done)
        invariant View() == done.(e := done.e.(index := index))
        invariant Faithful(index, done.e.index, sender, recipient, cache)
      {
        var item := items[i];
        LockAllStep(start, now, sender, recipient, token, items, i);
        RoundFaithful(index, done, now, sender, recipient, token, item, cache);
        var _ :- LockBatchItem(now, sender, recipient, token, item, done);
        done := LockItem(done, now, sender, recipient, token, item).value;
        cache := Remember(cache, index, item.driver, item.id);
      }
      assert items[..|items|] == items;
      return Ok(cache);
    }

    method CreateEscrowsBatch(now: nat, sender: Address, recipient: Address, token: Address, items: seq<BatchItem>)
      returns (r: Result<nat>)
      modifies `records, `index, `totalLocked, `senderVolume, `audit, ledger
      ensures match CreateAll(old(View()), now, sender, recipient, token, items)
              case Ok(after) => r == Ok(|items|) && View() == after
              case Err(e) => r == Err(e) && View() == old(View())
    {
      if sender == EscrowAddress {
        return Err(Unauthorized);
      }
      if |items| > MAX_BATCH_SIZE {
        return Err(InvalidState);
      }
      var saved, money := State(), ledger.balances;
      ghost var history := audit;
      var locked := LockItems(now, sender, recipient, token, items);
      if locked.Err? {
        Rollback(saved, money, history);
        return Err(locked.error);
      }
      var cache := locked.value;
      index := index[BySender(sender) := cache.senderIds];
      index := index[ByRecipient(recipient) := cache.recipientIds];
      WriteBack(cache.driverIds);
      return Ok(|items|);
    }

    method MarkHoldbackEscrow(caller: Address, id: nat) returns (r: Result<Unit>)
      modifies `records
      ensures Reports(DoMarkHoldback(old(View()), caller, id), old(View()), r)
    {
      if id !in records {
        return Err(NotFound);
      }
      var record := records[id];
      if caller != record.recipient {
        return Err(Unauthorized);
      }
      if record.status != Locked {
        return Err(InvalidState);
      }
      records := records[id := record.(status := Holdback)];
      return Ok(Unit);
    }

    /** Pays the driver, or the payout address of the fleet the escrow names. */
    method PayoutDriver(token: Address, driver: Address, amount: int, fleetId: Option<nat>) returns (r: Result<Unit>)
      modifies ledger
      ensures match PayoutTo(fleet != null, Registry(), driver, amount, fleetId)
              case Err(e) => r == Err(e) && ledger.balances == old(ledger.balances)
              case Ok(payee) =>
                if amount <= 0 then r == Ok(Unit) && ledger.balances == old(ledger.balances)
                else match Transfer(old(ledger.balances), token, EscrowAddress, payee, amount)
                     case Ok(after) => r == Ok(Unit) && ledger.balances == after
                     case Err(e) => r == Err(e) && ledger.balances == old(ledger.balances)
    {
      if amount <= 0 {
        return Ok(Unit);
      }
      var payoutAddress := driver;
      if fleet != null && fleetId.Some? {
        payoutAddress :- fleet.GetPayoutAddress(driver, fleetId.value);
      }
      r := ledger.Move(token, EscrowAddress, payoutAddress, amount);
    }

    /** The driver's amount to the driver's side, then the fee to the admin. */
    method SettleAmounts(record: EscrowRecord, driverAmount: int, platformFee: int) returns (r: Result<Unit>)
      modifies ledger
      ensures match PayoutTo(fleet != null, Registry(), record.driver, driverAmount, record.fleetId)
              case Err(e) => r == Err(e)
              case Ok(payee) =>
                match PayAll(old(ledger.balances), record.token, Shares(payee, driverAmount, admin, platformFee))
                case Ok(after) => r == Ok(Unit) && ledger.balances == after
                case Err(e) => r == Err(e)
    {
      ghost var payee := PayoutTo(fleet != null, Registry(), record.driver, driverAmount, record.fleetId);
      if payee.Ok? {
        SharesPaid(ledger.balances, record.token, payee.value, driverAmount, admin, platformFee);
      }
      var _ :- PayoutDriver(record.token, record.driver, driverAmount, record.fleetId);
      if platformFee > 0 {
        r := ledger.Move(record.token, EscrowAddress, admin, platformFee);
      } else {
        return Ok(Unit);
      }
    }

    method SettleEscrowFunds(record: EscrowRecord) returns (r: Result<Unit>)
      modifies ledger
      ensures match Payee(State(), Registry(), record)
              case Err(e) => r == Err(e)
              case Ok(payee) =>
                match PayAll(old(ledger.balances), record.token, ReleaseShares(record.amount, feeBps, payee, admin))
                case Ok(after) => r == Ok(Unit) && ledger.balances == after
                case Err(e) => r == Err(e)
    {
      var platformFee := CalculateFee(record.amount, feeBps);
      var driverAmount := SatSub(record.amount, platformFee);
      r := SettleAmounts(record, driverAmount, platformFee);
    }

    /** The common end of every settling call: store the final status, lower the running total. */
    method Finish(id: nat, record: EscrowRecord, status: EscrowStatus, ghost payments: seq<Payment>)
      requires id in records && records[id] == record
      modifies `records, `totalLocked, `audit
      ensures View() == ClosedAs(old(View()), id, status, payments, ledger.balances)
    {
      records := records[id := record.(status := status)];
      var current := if record.token in totalLocked then totalLocked[record.token] else 0;
      totalLocked := totalLocked[record.token := Saturate(current - record.amount)];
      audit := audit.(paid := audit.paid[id := (if id in audit.paid then audit.paid[id] else []) + payments]);
    }

    method CountDelivery(id: nat, sender: Address)
      requires id in records && records[id].sender == sender
      modifies `senderVolume
      ensures View() == Counted(old(View()), id)
    {
      var volume := if sender in senderVolume then senderVolume[sender] else 0;
      senderVolume := senderVolume[sender := if volume + 1 > U32_MAX then U32_MAX else volume + 1];
    }

    /** Counts the delivery for the sender and pays out, or does neither. */
    method SettleCounted(id: nat, record: EscrowRecord) returns (r: Result<Unit>)
      requires id in records && records[id] == record
      modifies `senderVolume, ledger
      ensures match Payee(old(State()), old(Registry()), record)
              case Err(e) => r == Err(e) && View() == old(View())
              case Ok(payee) =>
                match PayAll(old(ledger.balances), record.token, ReleasePayments(old(View()), id, payee))
                case Ok(after) => r == Ok(Unit) && View() == Counted(old(View()), id).(ledger := after)
                case Err(e) => r == Err(e) && View() == old(View())
    {
      var counters, money := senderVolume, ledger.balances;
      ghost var payee := Payee(State(), Registry(), record);
      CountDelivery(id, record.sender);
      assert Payee(State(), Registry(), record) == payee;
      r := SettleEscrowFunds(record);
      if r.Err? {
        senderVolume := counters;
        ledger.Rollback(money);
      }
    }

    /** Counts the delivery for the sender, pays out, and closes the escrow as released. */
    method PayOut(id: nat, record: EscrowRecord) returns (r: Result<Unit>)
      requires id in records && records[id] == record
      modifies `records, `totalLocked, `senderVolume, `audit, ledger
      ensures Reports(PayDriver(old(View()), old(Registry()), id), old(View()), r)
    {
      PayDriverCases(View(), Registry(), id);
      ghost var payee := Payee(State(), Registry(), record);
      var _ :- SettleCounted(id, record);
      Finish(id, record, Released, ReleaseShares(record.amount, feeBps, payee.value, admin));
      return Ok(Unit);
    }

    /** Checks the balance, returns the amount to the sender and closes the escrow as refunded. */
    method RefundTo(id: nat, record: EscrowRecord) returns (r: Result<Unit>)
      requires id in records && records[id] == record
      modifies `records, `totalLocked, `audit, ledger
      ensures Reports(ReturnToSender(old(View()), id), old(View()), r)
    {
      if Balance(ledger.balances, record.token, EscrowAddress) < record.amount {
        return Err(InsufficientFunds);
      }
      ghost var refund := [Payment(record.sender, record.amount)];
      PayOne(ledger.balances, record.token, refund[0]);
      var _ :- ledger.Move(record.token, EscrowAddress, record.sender, record.amount);
      Finish(id, record, Refunded, refund);
      return Ok(Unit);
    }

    method ReleaseEscrow(caller: Address, id: nat) returns (r: Result<Unit>)
      modifies `records, `totalLocked, `senderVolume, `audit, ledger
      ensures Reports(DoRelease(old(View()), old(Registry()), caller, id), old(View()), r)
    {
      if paused {
        return Err(ProtocolPaused);
      }
      if id !in records {
        return Err(NotFound);
      }
      var record := records[id];
      if caller != admin && caller != record.recipient {
        return Err(Unauthorized);
      }
      if record.status != Locked {
        return Err(InvalidState);
      }
      if Balance(ledger.balances, record.token, EscrowAddress) < record.amount {
        return Err(InsufficientFunds);
      }
      r := PayOut(id, record);
    }

    method RefundEscrow(caller: Address, id: nat) returns (r: Result<Unit>)
      modifies `records, `totalLocked, `audit, ledger
      ensures Reports(DoRefund(old(View()), caller, id), old(View()), r)
    {
      if paused {
        return Err(ProtocolPaused);
      }
      if id !in records {
        return Err(NotFound);
      }
      var record := records[id];
      if caller != admin && caller != record.sender {
        return Err(Unauthorized);
      }
      if record.status != Locked && record.status != Paused && record.status != Holdback {
        return Err(InvalidState);
      }
      r := RefundTo(id, record);
    }

    method RaiseDispute(now: nat, caller: Address, id: nat) returns (r: Result<Unit>)
      modifies `records
      ensures Reports(DoRaiseDispute(old(View()), now, caller, id), old(View()), r)
    {
      if id !in records {
        return Err(NotFound);
      }
      var record := records[id];
      if caller != record.sender && caller != record.recipient && caller != record.driver {
        return Err(Unauthorized);
      }
      if record.status != Locked {
        return Err(InvalidState);
      }
      records := records[id := record.(status := Paused, disputedBy := Some(caller), disputedAt := Some(now))];
      return Ok(Unit);
    }

    method ResolveDispute(caller: Address, id: nat, toDriver: bool) returns (r: Result<Unit>)
      modifies `records, `totalLocked, `senderVolume, `audit, ledger
      ensures Reports(DoResolveDispute(old(View()), old(Registry()), caller, id, toDriver), old(View()), r)
    {
      if paused {
        return Err(ProtocolPaused);
      }
      if caller != admin {
        return Err(Unauthorized);
      }
      if id !in records {
        return Err(NotFound);
      }
      var record := records[id];
      if record.status != Paused {
        return Err(InvalidState);
      }
      if toDriver {
        r := PayOut(id, record);
      } else {
        r := RefundTo(id, record);
      }
    }

    method ResolveDisputeSplit(caller: Address, id: nat, senderBps: nat) returns (r: Result<Unit>)
      modifies `records, `totalLocked, `audit, ledger
      ensures Reports(DoResolveSplit(old(View()), caller, id, senderBps), old(View()), r)
    {
      if paused {
        return Err(ProtocolPaused);
      }
      if caller != admin {
        return Err(Unauthorized);
      }
      if senderBps > BPS {
        return Err(InvalidFee);
      }
      if id !in records {
        return Err(NotFound);
      }
      var record := records[id];
      if record.status != Paused {
        return Err(InvalidState);
      }
      if Balance(ledger.balances, record.token, EscrowAddress) < record.amount {
        return Err(InsufficientFunds);
      }
      r := PaySplit(id, record, senderBps);
    }

    method PaySplit(id: nat, record: EscrowRecord, senderBps: nat) returns (r: Result<Unit>)
      requires id in records && records[id] == record
      modifies `records, `totalLocked, `audit, ledger
      ensures Reports(Close(old(View()), id, Split, SplitPayments(record, senderBps)), old(View()), r)
    {
      var money := ledger.balances;
      var senderAmount := SenderShare(record.amount, senderBps);
      var driverAmount := SatSub(record.amount, senderAmount);
      SharesPaid(money, record.token, record.sender, senderAmount, record.driver, driverAmount);
      if senderAmount > 0 {
        var _ :- ledger.Move(record.token, EscrowAddress, record.sender, senderAmount);
      }
      if driverAmount > 0 {
        var moved := ledger.Move(record.token, EscrowAddress, record.driver, driverAmount);
        if moved.Err? {
          ledger.Rollback(money);
          return moved;
        }
      }
      Finish(id, record, Split, SplitPayments(record, senderBps));
      return Ok(Unit);
    }

    method ReleaseHoldbackEscrow(caller: Address, id: nat) returns (r: Result<Unit>)
      modifies `records, `totalLocked, `senderVolume, `audit, ledger
      ensures Reports(DoReleaseHoldback(old(View()), old(Registry()), caller, id), old(View()), r)
    {
      if id !in records {
        return Err(NotFound);
      }
      var record := records[id];
      if caller != admin && caller != record.recipient {
        return Err(Unauthorized);
      }
      if record.status != Holdback {
        return Err(InvalidState);
      }
      if Balance(ledger.balances, record.token, EscrowAddress) < record.amount {
        return Err(InsufficientFunds);
      }
      r := PayOut(id, record);
    }

    method FreezeFunds(now: nat, caller: Address, id: nat) returns (r: Result<Unit>)
      modifies `records
      ensures Reports(DoFreezeFunds(old(View()), now, caller, id), old(View()), r)
    {
      if disputeContract.None? {
        return Err(NotInitialized);
      }
      if caller != disputeContract.value {
        return Err(Unauthorized);
      }
      if id !in records {
        return Err(NotFound);
      }
      var record := records[id];
      if record.status == Locked || record.status == Holdback {
        records := records[id := record.(status := Paused, disputedAt := Some(now))];
      }
      return Ok(Unit);
    }

    method ReclaimExpiredEscrow(now: nat, id: nat) returns (r: Result<Unit>)
      modifies `records, `totalLocked, `audit, ledger
      ensures Reports(DoReclaimExpired(old(View()), now, id), old(View()), r)
    {
      if id !in records {
        return Err(NotFound);
      }
      var record := records[id];
      if record.status != Locked {
        return Err(InvalidState);
      }
      match record.expiresAt
      case None => return Err(InvalidState);
      case Some(expiresAt) =>
        if now <= expiresAt {
          return Err(InvalidState);
        }
        r := RefundTo(id, record);
    }

    method SweepUntrackedBalance(caller: Address, token: Address, recipient: Address) returns (r: Result<Unit>)
      modifies ledger
      ensures Reports(DoSweep(old(View()), caller, token, recipient), old(View()), r)
    {
      if caller != admin {
        return Err(Unauthorized);
      }
      var balance := Balance(ledger.balances, token, EscrowAddress);
      var locked := if token in totalLocked then totalLocked[token] else 0;
      if balance <= locked {
        return Ok(Unit);
      }
      r := ledger.Move(token, EscrowAddress, recipient, SatSub(balance, locked));
    }
  }
}
