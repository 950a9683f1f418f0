/** Every escrow record is the replay of the committed calls: who may make which call, what it writes
    into the record, and what it leaves alone, told without the functions that do it. */
module EscrowHistory {
  import opened Prelude
  import opened Token
  import opened Escrow
  import opened EscrowBooks
  import opened EscrowLife
  import opened EscrowOutcomes
  import EscrowBatch
  import EscrowSolvency
  import Fleet

  // ── The replay ──────────────────────────────────────────────────────────────

  function Stored(v: Vault, id: nat): Option<EscrowRecord> {
    if id in v.e.records then Some(v.e.records[id]) else None
  }

  function ItemFor(items: seq<BatchItem>, id: nat): Option<BatchItem>
    decreases |items|
  {
    if items == [] then None
    else if items[|items| - 1].id == id then Some(items[|items| - 1])
    else ItemFor(items[..|items| - 1], id)
  }

  /** The record a committed creation opens under an id: the terms asked for, locked, expiring after
      thirty days. Batches never name a fleet. */
  function Opened(call: EscrowCall, now: nat, id: nat): Option<EscrowRecord> {
    var expiry := Some(Min(U64_MAX, now + 2_592_000));
    match call
    case CreateEscrow(sender, recipient, driver, i, token, amount, fleetId) =>
      if i == id
      then Some(EscrowRecord(sender, recipient, driver, token, amount, Locked, now, expiry, None, None, fleetId))
      else None
    case CreateBatch(sender, recipient, token, items) =>
      (match ItemFor(items, id)
       case Some(item) =>
         Some(EscrowRecord(sender, recipient, item.driver, token, item.amount, Locked, now, expiry, None, None, None))
       case None => None)
    case _ => None
  }

  /** What a committed call makes of a record that is there. */
  function Rewritten(r: EscrowRecord, now: nat, call: EscrowCall, id: nat): EscrowRecord {
    match call
    case MarkHoldback(_, i) => if i == id then r.(status := Holdback) else r
    case RaiseDispute(caller, i) =>
      if i == id then r.(status := Paused, disputedBy := Some(caller), disputedAt := Some(now)) else r
    case FreezeFunds(_, i) =>
      if i == id && r.status in {Locked, Holdback} then r.(status := Paused, disputedAt := Some(now)) else r
    case Refund(_, i) => if i == id then r.(status := Refunded) else r
    case ReclaimExpired(i) => if i == id then r.(status := Refunded) else r
    case ResolveDispute(_, i, toDriver) => if i == id then r.(status := if toDriver then Released else Refunded) else r
    case ResolveSplit(_, i, _) => if i == id then r.(status := Split) else r
    case Release(_, i) => if i == id then r.(status := Released) else r
    case ReleaseHoldback(_, i) => if i == id then r.(status := Released) else r
    case _ => r
  }

  /** What one call makes of what is stored under an id. */
  function Replayed(before: Option<EscrowRecord>, tick: EscrowTick, id: nat): Option<EscrowRecord> {
    match before
    case None => Opened(tick.call, tick.now, id)
    case Some(r) => Some(Rewritten(r, tick.now, tick.call, id))
  }

  /** The committed calls of a run, replayed for one id. */
  ghost function Told(v: Vault, ticks: seq<EscrowTick>, id: nat): Option<EscrowRecord>
    decreases |ticks|
  {
    if ticks == [] then None
    else
      var init, last := ticks[..|ticks| - 1], ticks[|ticks| - 1];
      if EscrowDo(EscrowRun(v, init), last.fleet, last.now, last.call).Ok?
      then Replayed(Told(v, init, id), last, id) else Told(v, init, id)
  }

  lemma LockItemStores(v: Vault, now: nat, sender: Address, recipient: Address, token: Address, item: BatchItem)
    requires LockItem(v, now, sender, recipient, token, item).Ok?
    ensures item.id !in v.e.records
    ensures LockItem(v, now, sender, recipient, token, item).value.e.records
         == v.e.records[item.id := EscrowRecord(sender, recipient, item.driver, token, item.amount, Locked, now,
                                                Some(Min(U64_MAX, now + 2_592_000)), None, None, None)]
  {
  }

  lemma {:induction false} LockAllStores(v: Vault, now: nat, sender: Address, recipient: Address, token: Address, items: seq<BatchItem>, id: nat)
    requires LockAll(v, now, sender, recipient, token, items).Ok?
    ensures var w := LockAll(v, now, sender, recipient, token, items).value;
            Stored(w, id) == if id in v.e.records then Stored(v, id) else Opened(CreateBatch(sender, recipient, token, items), now, id)
    ensures ItemFor(items, id).Some? ==> id !in v.e.records
    decreases |items|
  {
    if items != [] {
      var init, last := items[..|items| - 1], items[|items| - 1];
      LockAllStores(v, now, sender, recipient, token, init, id);
      LockItemStores(LockAll(v, now, sender, recipient, token, init).value, now, sender, recipient, token, last);
    }
  }

  lemma CreateStores(v: Vault, tick: EscrowTick, id: nat)
    requires tick.call.CreateEscrow? && EscrowDo(v, tick.fleet, tick.now, tick.call).Ok?
    ensures Stored(EscrowStep(v, tick), id) == Replayed(Stored(v, id), tick, id)
    ensures tick.call.id !in v.e.records
  {
    var c := tick.call;
    CreateParts(v, tick.now, c.sender, c.recipient, c.driver, c.id, c.token, c.amount, c.fleetId);
    LockParts(v, c.id, NewRecord(tick.now, c.sender, c.recipient, c.driver, c.token, c.amount, c.fleetId));
  }

  lemma BatchStores(v: Vault, tick: EscrowTick, id: nat)
    requires tick.call.CreateBatch? && EscrowDo(v, tick.fleet, tick.now, tick.call).Ok?
    ensures Stored(EscrowStep(v, tick), id) == Replayed(Stored(v, id), tick, id)
  {
    LockAllStores(v, tick.now, tick.call.sender, tick.call.recipient, tick.call.token, tick.call.items, id);
  }

  lemma SettlingStores(v: Vault, tick: EscrowTick, id: nat)
    requires IsSettling(tick.call) && EscrowDo(v, tick.fleet, tick.now, tick.call).Ok?
    ensures Stored(EscrowStep(v, tick), id) == Replayed(Stored(v, id), tick, id)
  {
    var u, ps := SettlingIsClose(v, tick);
    CloseKeeps(u, tick.call.id, FinalStatus(tick.call), ps);
  }

  lemma StampingStores(v: Vault, tick: EscrowTick, id: nat)
    requires IsStamping(tick.call) && EscrowDo(v, tick.fleet, tick.now, tick.call).Ok?
    ensures Stored(EscrowStep(v, tick), id) == Replayed(Stored(v, id), tick, id)
  {
  }

  /** A committed call leaves of every record what the replay says; a rejected one changes nothing. */
  lemma StepIsReplayed(v: Vault, tick: EscrowTick, id: nat)
    ensures Stored(EscrowStep(v, tick), id)
         == if EscrowDo(v, tick.fleet, tick.now, tick.call).Ok? then Replayed(Stored(v, id), tick, id) else Stored(v, id)
  {
    if EscrowDo(v, tick.fleet, tick.now, tick.call).Ok? {
      if tick.call.CreateEscrow? {
        CreateStores(v, tick, id);
      } else if tick.call.CreateBatch? {
        BatchStores(v, tick, id);
      } else if IsSettling(tick.call) {
        SettlingStores(v, tick, id);
      } else if IsStamping(tick.call) {
        StampingStores(v, tick, id);
      } else {
        OthersKeepRecords(v, tick);
      }
    }
  }

  /** Over every run, what is stored under an id is what the committed calls say, from the creation
      that opened it on. */
  lemma {:induction false} RecordIsItsHistory(v: Vault, ticks: seq<EscrowTick>, id: nat)
    requires Initial(v)
    ensures Stored(EscrowRun(v, ticks), id) == Told(v, ticks, id)
    decreases |ticks|
  {
    if ticks != [] {
      RecordIsItsHistory(v, ticks[..|ticks| - 1], id);
      StepIsReplayed(EscrowRun(v, ticks[..|ticks| - 1]), ticks[|ticks| - 1], id);
    }
  }

  /** Call k committed and opened the escrow with this record. */
  ghost predicate OpenedAt(v: Vault, ticks: seq<EscrowTick>, k: nat, id: nat, r: EscrowRecord) {
    && k < |ticks| && Opened(ticks[k].call, ticks[k].now, id) == Some(r)
    && EscrowDo(EscrowRun(v, ticks[..k]), ticks[k].fleet, ticks[k].now, ticks[k].call).Ok?
    && id !in EscrowRun(v, ticks[..k]).e.records
  }

  lemma TermsStay(v: Vault, tick: EscrowTick, id: nat)
    requires id in v.e.records
    ensures id in EscrowStep(v, tick).e.records && SameTerms(v.e.records[id], EscrowStep(v, tick).e.records[id])
  {
    EscrowStepEvolves(v, tick);
    assert Moves(v, EscrowStep(v, tick), id);
  }

  lemma AppearsOpened(v: Vault, tick: EscrowTick, id: nat)
    requires id !in v.e.records && id in EscrowStep(v, tick).e.records
    ensures EscrowDo(v, tick.fleet, tick.now, tick.call).Ok?
    ensures Opened(tick.call, tick.now, id) == Some(EscrowStep(v, tick).e.records[id])
  {
    StepIsReplayed(v, tick, id);
  }

  /** Every escrow was opened by one of the calls of the run, and keeps the terms it was opened with. */
  lemma {:induction false} RecordOrigin(v: Vault, ticks: seq<EscrowTick>, id: nat) returns (k: nat, r: EscrowRecord)
    requires Initial(v) && id in EscrowRun(v, ticks).e.records
    ensures OpenedAt(v, ticks, k, id, r) && SameTerms(r, EscrowRun(v, ticks).e.records[id])
    decreases |ticks|
  {
    assert ticks != [];
    var init, last := ticks[..|ticks| - 1], ticks[|ticks| - 1];
    if id in EscrowRun(v, init).e.records {
      k, r := RecordOrigin(v, init, id);
      TermsStay(EscrowRun(v, init), last, id);
      assert init[..k] == ticks[..k] && init[k] == ticks[k];
    } else {
      AppearsOpened(EscrowRun(v, init), last, id);
      k, r := |ticks| - 1, EscrowRun(v, ticks).e.records[id];
    }
  }

  /** What a reclaim that commits has found. */
  lemma ReclaimFinds(v: Vault, now: nat, id: nat)
    requires DoReclaimExpired(v, now, id).Ok? && now <= U64_MAX
    ensures id in v.e.records && v.e.records[id].status == Locked
    ensures v.e.records[id].expiresAt.Some? && now > v.e.records[id].expiresAt.value
  {
  }

  /** An escrow is reclaimed only when more than thirty days have passed since the call that created it,
      as long as timestamps fit their type. */
  lemma ReclaimWaits(v: Vault, ticks: seq<EscrowTick>, now: nat, id: nat) returns (j: nat, r: EscrowRecord)
    requires Initial(v) && DoReclaimExpired(EscrowRun(v, ticks), now, id).Ok? && now <= U64_MAX
    ensures OpenedAt(v, ticks, j, id, r) && now > ticks[j].now + 2_592_000
  {
    ReclaimFinds(EscrowRun(v, ticks), now, id);
    j, r := RecordOrigin(v, ticks, id);
  }

  // ── Who may do what ─────────────────────────────────────────────────────────

  predicate Stands(v: Vault, id: nat, status: EscrowStatus) {
    id in v.e.records && v.e.records[id].status == status
  }

  /** The calls that a vault which can pay what it owes accepts. */
  ghost predicate Permitted(v: Vault, now: nat, call: EscrowCall) {
    var admin, running := v.e.admin, !v.e.paused;
    match call
    case CreateEscrow(sender, _, _, id, token, amount, _) =>
      sender != EscrowAddress && id !in v.e.records && token == v.e.token && 0 < amount <= Balance(v.ledger, token, sender)
    case CreateBatch(sender, _, token, items) =>
      && sender != EscrowAddress && |items| <= 100
      && (forall i :: 0 <= i < |items| ==> items[i].id !in v.e.records && items[i].amount >= 0)
      && (forall i, j :: 0 <= i < j < |items| ==> items[i].id != items[j].id)
      && EscrowBatch.ItemSum(items) <= Balance(v.ledger, token, sender)
    case MarkHoldback(caller, id) => Stands(v, id, Locked) && caller == v.e.records[id].recipient
    case RaiseDispute(caller, id) =>
      Stands(v, id, Locked) && caller in {v.e.records[id].sender, v.e.records[id].recipient, v.e.records[id].driver}
    case FreezeFunds(caller, id) => v.e.disputeContract == Some(caller) && id in v.e.records
    case Release(caller, id) => running && Stands(v, id, Locked) && caller in {admin, v.e.records[id].recipient}
    case ReleaseHoldback(caller, id) => Stands(v, id, Holdback) && caller in {admin, v.e.records[id].recipient}
    case ResolveDispute(caller, id, _) => running && Stands(v, id, Paused) && caller == admin
    case ResolveSplit(caller, id, bps) => running && Stands(v, id, Paused) && caller == admin && bps <= 10_000
    case Refund(caller, id) =>
      && running && (Stands(v, id, Locked) || Stands(v, id, Holdback) || Stands(v, id, Paused))
      && caller in {admin, v.e.records[id].sender}
    case ReclaimExpired(id) => Stands(v, id, Locked) && now > Min(U64_MAX, v.e.records[id].createdAt + 2_592_000)
    case Sweep(caller, token, _) => caller == admin && (TotalLocked(v.e, token) >= 0 || Held(v, token) == I128_MAX)
    case UpdateFee(caller, bps) => caller == admin && bps <= 1000
    case Reconfigure(_, _, _, _, _) => true
    case TokenTransfer(token, from, _, amount) => from != EscrowAddress && 0 <= amount <= Balance(v.ledger, token, from)
  }

  lemma FundingPermitted(v: Vault, tick: EscrowTick)
    requires SoundLedger(v.ledger) && IsFunding(tick.call)
    ensures EscrowDo(v, tick.fleet, tick.now, tick.call).Ok? <==> Permitted(v, tick.now, tick.call)
  {
    match tick.call
    case CreateEscrow(sender, recipient, driver, id, token, amount, fleetId) =>
      if sender != EscrowAddress && amount > 0 && id !in v.e.records && token == v.e.token {
        CreateParts(v, tick.now, sender, recipient, driver, id, token, amount, fleetId);
        LockParts(v, id, NewRecord(tick.now, sender, recipient, driver, token, amount, fleetId));
      }
    case CreateBatch(sender, recipient, token, items) =>
      EscrowBatch.BatchAcceptedIff(v, tick.now, sender, recipient, token, items);
  }

  lemma StampingPermitted(v: Vault, tick: EscrowTick)
    requires IsStamping(tick.call)
    ensures EscrowDo(v, tick.fleet, tick.now, tick.call).Ok? <==> Permitted(v, tick.now, tick.call)
  {
  }

  lemma SettlingNeedsRecord(v: Vault, tick: EscrowTick)
    requires IsSettling(tick.call) && tick.call.id !in v.e.records
    ensures EscrowDo(v, tick.fleet, tick.now, tick.call).Err?
  {
  }

  lemma SettlingPermitted(v: Vault, tick: EscrowTick)
    requires Books(v) && EscrowSolvency.Solvent(v) && Fleet.FleetInv(tick.fleet) && IsSettling(tick.call)
    ensures EscrowDo(v, tick.fleet, tick.now, tick.call).Ok? <==> Permitted(v, tick.now, tick.call)
  {
    if tick.call.id !in v.e.records {
      SettlingNeedsRecord(v, tick);
    } else {
      match tick.call
      case Release(caller, id) => PayoutSucceedsIff(v, tick.fleet, caller, id);
      case ReleaseHoldback(caller, id) => PayoutSucceedsIff(v, tick.fleet, caller, id);
      case ResolveDispute(caller, id, toDriver) =>
        PayoutSucceedsIff(v, tick.fleet, caller, id);
        RefundSucceedsIff(v, tick.fleet, tick.now, caller, id);
      case Refund(caller, id) => RefundSucceedsIff(v, tick.fleet, tick.now, caller, id);
      case ReclaimExpired(id) => RefundSucceedsIff(v, tick.fleet, tick.now, v.e.admin, id);
      case ResolveSplit(caller, id, bps) => SplitSucceedsIff(v, caller, id, bps);
    }
  }

  /** In a state that can pay what it owes, every call goes through exactly when it is permitted. */
  lemma CommitsIff(v: Vault, tick: EscrowTick)
    requires Books(v) && EscrowSolvency.Solvent(v) && Fleet.FleetInv(tick.fleet)
    ensures EscrowDo(v, tick.fleet, tick.now, tick.call).Ok? <==> Permitted(v, tick.now, tick.call)
  {
    if IsFunding(tick.call) {
      FundingPermitted(v, tick);
    } else if IsStamping(tick.call) {
      StampingPermitted(v, tick);
    } else if IsSettling(tick.call) {
      SettlingPermitted(v, tick);
    } else if tick.call.Sweep? {
      EscrowSolvency.SweepSucceedsIff(v, tick.call.caller, tick.call.token, tick.call.recipient);
    }
  }

  // ── What a creation moves, and what the settings are ────────────────────────

  /** A creation takes the amount from the sender, raises the running total, and appends the id to the
      three lists of the addresses it names; nothing else changes. */
  ghost predicate Funds(v: Vault, w: Vault, sender: Address, recipient: Address, driver: Address, id: nat, token: Address, amount: int) {
    && (forall t, a :: Balance(w.ledger, t, a) == Balance(v.ledger, t, a)
                       + If(t == token && a == EscrowAddress, amount) - If(t == token && a == sender, amount))
    && (forall t :: TotalLocked(w.e, t) == if t == token then Max(I128_MIN, Min(I128_MAX, TotalLocked(v.e, t) + amount)) else TotalLocked(v.e, t))
    && (forall key :: Ids(w.e.index, key) == Ids(v.e.index, key)
                      + if key in {BySender(sender), ByRecipient(recipient), ByDriver(driver)} then [id] else [])
    && (forall i :: i != id ==> Stored(w, i) == Stored(v, i))
    && w.e.senderVolume == v.e.senderVolume && id in w.audit.paid && w.audit.paid[id] == []
  }

  lemma ListsExtended(index: Index, id: nat, r: EscrowRecord)
    ensures forall key :: Ids(Indexed(index, id, r), key)
                       == Ids(index, key) + if key in {BySender(r.sender), ByRecipient(r.recipient), ByDriver(r.driver)} then [id] else []
  {
    forall key ensures Ids(Indexed(index, id, r), key)
                    == Ids(index, key) + if key in {BySender(r.sender), ByRecipient(r.recipient), ByDriver(r.driver)} then [id] else [] {
      IndexedAt(index, id, r, key);
    }
  }

  /** A committed creation opens the escrow asked for, and moves exactly its amount. */
  lemma CreationFunds(v: Vault, tick: EscrowTick)
    requires tick.call.CreateEscrow? && EscrowDo(v, tick.fleet, tick.now, tick.call).Ok?
    ensures var c := tick.call;
            && c.id !in v.e.records && Stored(EscrowStep(v, tick), c.id) == Opened(c, tick.now, c.id)
            && Funds(v, EscrowStep(v, tick), c.sender, c.recipient, c.driver, c.id, c.token, c.amount)
  {
    var c := tick.call;
    var r := NewRecord(tick.now, c.sender, c.recipient, c.driver, c.token, c.amount, c.fleetId);
    CreateStores(v, tick, c.id);
    CreateParts(v, tick.now, c.sender, c.recipient, c.driver, c.id, c.token, c.amount, c.fleetId);
    LockParts(v, c.id, r);
    TransferEffect(v.ledger, c.token, c.sender, EscrowAddress, c.amount);
    ListsExtended(v.e.index, c.id, r);
  }

  /** The last item of a list that goes through. */
  lemma LastItemStores(v: Vault, now: nat, sender: Address, recipient: Address, token: Address, init: seq<BatchItem>, last: BatchItem)
    requires LockAll(v, now, sender, recipient, token, init + [last]).Ok?
    ensures LockAll(v, now, sender, recipient, token, init).Ok?
    ensures var u := LockAll(v, now, sender, recipient, token, init).value;
            && last.id !in v.e.records && last.id !in u.e.records
            && LockAll(v, now, sender, recipient, token, init + [last]).value.e.records
            == u.e.records[last.id := EscrowRecord(sender, recipient, last.driver, token, last.amount, Locked, now,
                                                   Some(Min(U64_MAX, now + 2_592_000)), None, None, None)]
  {
    assert (init + [last])[..|init|] == init;
    LockItemStores(LockAll(v, now, sender, recipient, token, init).value, now, sender, recipient, token, last);
    LockAllStores(v, now, sender, recipient, token, init, last.id);
  }

  lemma {:induction false} ItemOpened(v: Vault, now: nat, sender: Address, recipient: Address, token: Address, items: seq<BatchItem>, i: nat)
    requires LockAll(v, now, sender, recipient, token, items).Ok? && i < |items|
    ensures var item, w := items[i], LockAll(v, now, sender, recipient, token, items).value;
            && item.id !in v.e.records && item.id in w.e.records
            && w.e.records[item.id]
            == EscrowRecord(sender, recipient, item.driver, token, item.amount, Locked, now,
                            Some(Min(U64_MAX, now + 2_592_000)), None, None, None)
    decreases |items|
  {
    var init, last := items[..|items| - 1], items[|items| - 1];
    assert items == init + [last];
    LastItemStores(v, now, sender, recipient, token, init, last);
    if i < |init| {
      ItemOpened(v, now, sender, recipient, token, init, i);
      assert items[i] == init[i];
    }
  }

  /** A committed batch opens every item it lists, as a creation without a fleet would. */
  lemma BatchOpens(v: Vault, tick: EscrowTick, i: nat)
    requires tick.call.CreateBatch? && EscrowDo(v, tick.fleet, tick.now, tick.call).Ok? && i < |tick.call.items|
    ensures var c, item := tick.call, tick.call.items[i];
            && item.id !in v.e.records
            && Stored(EscrowStep(v, tick), item.id)
            == Opened(CreateEscrow(c.sender, c.recipient, item.driver, item.id, c.token, item.amount, None), tick.now, item.id)
  {
    ItemOpened(v, tick.now, tick.call.sender, tick.call.recipient, tick.call.token, tick.call.items, i);
  }

  /** A setting changes only by a call that sets it. */
  lemma StepSettings(v: Vault, tick: EscrowTick)
    ensures var w, c := EscrowStep(v, tick), tick.call;
            var done := EscrowDo(v, tick.fleet, tick.now, c).Ok?;
            && w.e.token == v.e.token
            && w.e.feeBps == (if done && c.UpdateFee? then c.bps else v.e.feeBps)
            && w.e.admin == (if c.Reconfigure? then c.admin else v.e.admin)
            && w.e.paused == (if c.Reconfigure? then c.paused else v.e.paused)
            && w.e.fleetConfigured == (if c.Reconfigure? then c.fleetConfigured else v.e.fleetConfigured)
            && w.e.disputeContract == (if c.Reconfigure? then c.disputeContract else v.e.disputeContract)
            && w.e.tiers == (if c.Reconfigure? then c.tiers else v.e.tiers)
  {
    if EscrowDo(v, tick.fleet, tick.now, tick.call).Ok? {
      if tick.call.CreateBatch? {
        LockAllSettings(v, tick.now, tick.call.sender, tick.call.recipient, tick.call.token, tick.call.items);
      } else if IsSettling(tick.call) {
        var u, ps := SettlingIsClose(v, tick);
        CloseKeeps(u, tick.call.id, FinalStatus(tick.call), ps);
      }
    }
  }

  lemma {:induction false} LockAllSettings(v: Vault, now: nat, sender: Address, recipient: Address, token: Address, items: seq<BatchItem>)
    requires LockAll(v, now, sender, recipient, token, items).Ok?
    ensures var w := LockAll(v, now, sender, recipient, token, items).value;
            w.e == v.e.(records := w.e.records, index := w.e.index)
    decreases |items|
  {
    if items != [] {
      LockAllSettings(v, now, sender, recipient, token, items[..|items| - 1]);
    }
  }
}
