/** Solvency of the escrow contract and progress of every escrow, over whole runs. */
module EscrowSolvency {
  import opened Prelude
  import opened Sums
  import opened Token
  import opened Fees
  import opened Escrow
  import opened EscrowBooks
  import Fleet

  // ── What is owed ────────────────────────────────────────────────────────────

  function LiveWeight(token: Address): (nat, EscrowRecord) -> int {
    (id: nat, r: EscrowRecord) => if r.token == token && IsLive(r.status) then r.amount else 0
  }

  function BatchWeight(batched: set<nat>, token: Address): (nat, EscrowRecord) -> int {
    (id: nat, r: EscrowRecord) => if id in batched && r.token == token then r.amount else 0
  }

  /** The money of one token owed to live escrows. */
  ghost function Live(v: Vault, token: Address): int {
    Total(v.e.records, LiveWeight(token))
  }

  /** Everything ever locked by batches in one token, which the running total never saw. */
  ghost function BatchTotal(v: Vault, token: Address): int {
    Total(v.e.records, BatchWeight(v.audit.batched, token))
  }

  /** How holdings, debts, batch-locked amounts and running total of one token must relate. */
  predicate Covers(held: int, live: int, batch: int, total: int) {
    && held >= live >= total >= I128_MIN
    && total >= live - batch
    && (total == live <==> batch == 0)
    && (batch <= -I128_MIN ==> total == live - batch)
  }

  /** The contract holds what it owes. Its running total never exceeds that, and equals it exactly as
      long as no batch locked anything; it falls short by at most what batches locked, and by exactly
      that until batches have locked more than an i128 can count. */
  ghost predicate Covered(v: Vault, token: Address) {
    Covers(Held(v, token), Live(v, token), BatchTotal(v, token), TotalLocked(v.e, token))
  }

  ghost predicate Solvent(v: Vault) {
    forall token :: Covered(v, token)
  }

  lemma TotalsNonNegative(v: Vault, token: Address)
    requires RecordsSound(v)
    ensures Live(v, token) >= 0 && BatchTotal(v, token) >= 0
  {
    TotalNonNegative(v.e.records, LiveWeight(token));
    TotalNonNegative(v.e.records, BatchWeight(v.audit.batched, token));
  }

  /** A live escrow's amount is part of what is owed, hence held. */
  lemma LiveAmountIsHeld(v: Vault, id: nat)
    requires RecordsSound(v) && id in v.e.records && IsLive(v.e.records[id].status)
    requires Covered(v, v.e.records[id].token)
    ensures v.e.records[id].amount <= Held(v, v.e.records[id].token)
  {
    TotalBounds(v.e.records, LiveWeight(v.e.records[id].token), id);
  }

  // ── Each way the vault changes ──────────────────────────────────────────────

  /** Locking raises holdings and debts alike, and the batch total exactly for a batch. */
  lemma LockCover(v: Vault, id: nat, r: EscrowRecord, batch: bool, token: Address)
    requires Books(v) && Lock(v, id, r).Ok? && r.status == Locked && r.sender != EscrowAddress
    ensures var w := Lock(v, id, r).value;
            var u := if batch then w.(audit := w.audit.(batched := w.audit.batched + {id})) else w;
            var d := if token == r.token then r.amount else 0;
            && Held(u, token) == Held(v, token) + d
            && Live(u, token) == Live(v, token) + d
            && BatchTotal(u, token) == BatchTotal(v, token) + (if batch then d else 0)
            && TotalLocked(u.e, token) == TotalLocked(v.e, token)
  {
    var batched := if batch then v.audit.batched + {id} else v.audit.batched;
    TransferEffect(v.ledger, r.token, r.sender, EscrowAddress, r.amount);
    TotalPut(v.e.records, LiveWeight(token), id, r);
    TotalUpdate(v.e.records, BatchWeight(v.audit.batched, token), BatchWeight(batched, token), id, r);
  }

  /** Counting a fresh escrow in the running total. */
  lemma CountedCovered(v: Vault, u: Vault, t: Address, amount: int, token: Address)
    requires Covered(v, token) && 0 <= BatchTotal(v, token) && 0 <= Live(u, token) && Held(u, token) <= I128_MAX
    requires var d := if token == t then amount else 0;
             && Held(u, token) == Held(v, token) + d && Live(u, token) == Live(v, token) + d
             && BatchTotal(u, token) == BatchTotal(v, token) && TotalLocked(u.e, token) == TotalLocked(v.e, token)
    ensures Covered(u.(e := AddLocked(u.e, t, amount)), token)
  {
  }

  lemma CreateSolvent(v: Vault, now: nat, sender: Address, recipient: Address, driver: Address, id: nat,
                      t: Address, amount: int, fleetId: Option<nat>)
    requires Books(v) && Solvent(v) && Create(v, now, sender, recipient, driver, id, t, amount, fleetId).Ok?
    ensures Solvent(Create(v, now, sender, recipient, driver, id, t, amount, fleetId).value)
  {
    var r := NewRecord(now, sender, recipient, driver, t, amount, fleetId);
    var u := Lock(v, id, r).value;
    LockBooks(v, id, r);
    forall token ensures Covered(u.(e := AddLocked(u.e, t, amount)), token) {
      LockCover(v, id, r, false, token);
      assert Covered(v, token);
      TotalsNonNegative(v, token);
      TotalsNonNegative(u, token);
      BalanceWithinSupply(u.ledger, token, EscrowAddress);
      CountedCovered(v, u, t, amount, token);
    }
  }

  lemma LockItemCovered(v: Vault, now: nat, sender: Address, recipient: Address, t: Address, item: BatchItem, token: Address)
    requires Books(v) && Covered(v, token) && sender != EscrowAddress
    requires LockItem(v, now, sender, recipient, t, item).Ok?
    ensures Covered(LockItem(v, now, sender, recipient, t, item).value, token)
  {
    LockCover(v, item.id, NewRecord(now, sender, recipient, item.driver, t, item.amount, None), true, token);
    TotalsNonNegative(v, token);
  }

  lemma {:induction false} LockAllSolvent(v: Vault, now: nat, sender: Address, recipient: Address, t: Address, items: seq<BatchItem>)
    requires Books(v) && Solvent(v) && sender != EscrowAddress
    requires LockAll(v, now, sender, recipient, t, items).Ok?
    ensures Solvent(LockAll(v, now, sender, recipient, t, items).value)
    decreases |items|
  {
    if items != [] {
      var init, last := items[..|items| - 1], items[|items| - 1];
      LockAllSolvent(v, now, sender, recipient, t, init);
      LockAllBooks(v, now, sender, recipient, t, init);
      var u := LockAll(v, now, sender, recipient, t, init).value;
      forall token ensures Covered(LockItem(u, now, sender, recipient, t, last).value, token) {
        assert Covered(u, token);
        LockItemCovered(u, now, sender, recipient, t, last, token);
      }
    }
  }

  lemma CreateAllSolvent(v: Vault, now: nat, sender: Address, recipient: Address, t: Address, items: seq<BatchItem>)
    requires Books(v) && Solvent(v) && CreateAll(v, now, sender, recipient, t, items).Ok?
    ensures Solvent(CreateAll(v, now, sender, recipient, t, items).value)
  {
    LockAllSolvent(v, now, sender, recipient, t, items);
    SameMoneySolvent(LockAll(v, now, sender, recipient, t, items).value, CreateAll(v, now, sender, recipient, t, items).value);
  }

  lemma SameMoneySolvent(v: Vault, w: Vault)
    requires Solvent(v) && w.ledger == v.ledger
    requires w.e.records == v.e.records && w.audit.batched == v.audit.batched && w.e.totalLocked == v.e.totalLocked
    ensures Solvent(w)
  {
    forall token ensures Covered(w, token) {
      assert Covered(v, token);
    }
  }

  lemma StoreSolvent(v: Vault, id: nat, r: EscrowRecord)
    requires Solvent(v) && id in v.e.records
    requires SameTerms(v.e.records[id], r) && IsLive(v.e.records[id].status) && IsLive(r.status)
    ensures Solvent(Store(v, id, r))
  {
    forall token ensures Covered(Store(v, id, r), token) {
      assert Covered(v, token);
      TotalPut(v.e.records, LiveWeight(token), id, r);
      TotalPut(v.e.records, BatchWeight(v.audit.batched, token), id, r);
    }
  }

  lemma {:induction false} ReceivedNonNegative(ps: seq<Payment>, who: Address)
    requires forall p :: p in ps ==> p.amount >= 0
    ensures Received(ps, who) >= 0
    decreases |ps|
  {
    if ps != [] {
      ReceivedNonNegative(ps[1..], who);
    }
  }

  lemma LiveAfterClose(records: map<nat, EscrowRecord>, id: nat, status: EscrowStatus, batched: set<nat>, token: Address)
    requires id in records && IsLive(records[id].status) && !IsLive(status)
    ensures Total(records[id := records[id].(status := status)], LiveWeight(token)) ==
            Total(records, LiveWeight(token)) - if token == records[id].token then records[id].amount else 0
    ensures Total(records[id := records[id].(status := status)], BatchWeight(batched, token)) == Total(records, BatchWeight(batched, token))
  {
    TotalPut(records, LiveWeight(token), id, records[id].(status := status));
    TotalPut(records, BatchWeight(batched, token), id, records[id].(status := status));
  }

  /** Closing lowers debts and the running total by the amount, and holdings by no more: less
      when a payee is the escrow contract itself. */
  lemma CloseCover(v: Vault, id: nat, status: EscrowStatus, ps: seq<Payment>, token: Address)
    requires RecordsSound(v) && id in v.e.records && IsLive(v.e.records[id].status) && !IsLive(status)
    requires Close(v, id, status, ps).Ok?
    requires PaymentSum(ps) == v.e.records[id].amount && forall p :: p in ps ==> p.amount >= 0
    ensures var w := Close(v, id, status, ps).value;
            var r := v.e.records[id];
            var d := if token == r.token then r.amount else 0;
            && Held(w, token) >= Held(v, token) - d
            && Live(w, token) == Live(v, token) - d
            && BatchTotal(w, token) == BatchTotal(v, token)
            && TotalLocked(w.e, token) == if token == r.token then Saturate(TotalLocked(v.e, token) - d) else TotalLocked(v.e, token)
  {
    PayAllEffect(v.ledger, v.e.records[id].token, ps);
    ReceivedNonNegative(ps, EscrowAddress);
    LiveAfterClose(v.e.records, id, status, v.audit.batched, token);
  }

  lemma ClosingCovers(held: int, live: int, batch: int, total: int, after: int, d: int)
    requires Covers(held, live, batch, total) && held <= I128_MAX && batch >= 0
    requires 0 <= d <= live && after >= held - d
    ensures Covers(after, live - d, batch, Saturate(total - d)) && Covers(after, live - d, batch, if d == 0 then total else Saturate(total - d))
  {
  }

  lemma StillOwed(v: Vault, id: nat, status: EscrowStatus, ps: seq<Payment>, token: Address)
    requires RecordsSound(v) && id in v.e.records && Close(v, id, status, ps).Ok?
    ensures Live(Close(v, id, status, ps).value, token) >= 0
  {
    CloseKeeps(v, id, status, ps);
    TotalNonNegative(v.e.records[id := v.e.records[id].(status := status)], LiveWeight(token));
  }

  lemma CoveredAfter(v: Vault, w: Vault, d: int, token: Address)
    requires SoundLedger(v.ledger) && RecordsSound(v) && Covered(v, token)
    requires d >= 0 && Held(w, token) >= Held(v, token) - d && 0 <= Live(w, token) == Live(v, token) - d
    requires BatchTotal(w, token) == BatchTotal(v, token)
    requires TotalLocked(w.e, token) == Saturate(TotalLocked(v.e, token) - d) || (d == 0 && TotalLocked(w.e, token) == TotalLocked(v.e, token))
    ensures Covered(w, token)
  {
    TotalsNonNegative(v, token);
    BalanceWithinSupply(v.ledger, token, EscrowAddress);
    ClosingCovers(Held(v, token), Live(v, token), BatchTotal(v, token), TotalLocked(v.e, token), Held(w, token), d);
  }

  lemma CloseCovered(v: Vault, id: nat, status: EscrowStatus, ps: seq<Payment>, token: Address)
    requires SoundLedger(v.ledger) && RecordsSound(v) && Covered(v, token)
    requires id in v.e.records && IsLive(v.e.records[id].status) && !IsLive(status)
    requires Close(v, id, status, ps).Ok?
    requires PaymentSum(ps) == v.e.records[id].amount && forall p :: p in ps ==> p.amount >= 0
    ensures Covered(Close(v, id, status, ps).value, token)
  {
    CloseCover(v, id, status, ps, token);
    StillOwed(v, id, status, ps, token);
    CoveredAfter(v, Close(v, id, status, ps).value, if token == v.e.records[id].token then v.e.records[id].amount else 0, token);
  }

  lemma CloseSolvent(v: Vault, id: nat, status: EscrowStatus, ps: seq<Payment>)
    requires SoundLedger(v.ledger) && RecordsSound(v) && Solvent(v)
    requires id in v.e.records && IsLive(v.e.records[id].status) && !IsLive(status)
    requires Close(v, id, status, ps).Ok?
    requires PaymentSum(ps) == v.e.records[id].amount && forall p :: p in ps ==> p.amount >= 0
    ensures Solvent(Close(v, id, status, ps).value)
  {
    forall token ensures Covered(Close(v, id, status, ps).value, token) {
      assert Covered(v, token);
      CloseCovered(v, id, status, ps, token);
    }
  }

  lemma SettlingSolvent(v: Vault, tick: EscrowTick)
    requires Books(v) && Solvent(v) && IsSettling(tick.call) && EscrowDo(v, tick.fleet, tick.now, tick.call).Ok?
    ensures Solvent(EscrowStep(v, tick))
  {
    var u, ps := SettlingIsSettled(v, tick);
    SameMoneySolvent(v, u);
    CloseSolvent(u, tick.call.id, FinalStatus(tick.call), ps);
  }

  lemma TokenTransferSolvent(v: Vault, t: Address, from: Address, to: Address, amount: int)
    requires Solvent(v) && DoTokenTransfer(v, t, from, to, amount).Ok?
    ensures Solvent(DoTokenTransfer(v, t, from, to, amount).value)
  {
    TransferEffect(v.ledger, t, from, to, amount);
    forall token ensures Covered(DoTokenTransfer(v, t, from, to, amount).value, token) {
      assert Covered(v, token);
    }
  }

  // ── Sweeping ────────────────────────────────────────────────────────────────

  /** What a sweep that goes through leaves: everything but the holdings in the swept token. */
  lemma SweepEffect(v: Vault, caller: Address, t: Address, recipient: Address)
    requires DoSweep(v, caller, t, recipient).Ok?
    ensures var w := DoSweep(v, caller, t, recipient).value;
            && w == v.(ledger := w.ledger)
            && (forall other :: other != t ==> Held(w, other) == Held(v, other))
            && (Held(v, t) > TotalLocked(v.e, t) ==> SatSub(Held(v, t), TotalLocked(v.e, t)) <= Held(v, t))
            && Held(w, t) == (if Held(v, t) <= TotalLocked(v.e, t) || recipient == EscrowAddress then Held(v, t)
                              else Held(v, t) - SatSub(Held(v, t), TotalLocked(v.e, t)))
  {
    if Held(v, t) > TotalLocked(v.e, t) {
      TransferEffect(v.ledger, t, EscrowAddress, recipient, SatSub(Held(v, t), TotalLocked(v.e, t)));
    }
  }

  /** A sweep goes through exactly for the admin while the running total is not negative; once it is,
      the excess over it is more than there is, and only the largest i128 can still be swept. */
  lemma SweepSucceedsIff(v: Vault, caller: Address, t: Address, recipient: Address)
    requires Books(v) && Solvent(v)
    ensures DoSweep(v, caller, t, recipient).Ok? <==>
            caller == v.e.admin && (TotalLocked(v.e, t) >= 0 || Held(v, t) == I128_MAX)
  {
    assert Covered(v, t);
    TotalsNonNegative(v, t);
    BalanceWithinSupply(v.ledger, t, EscrowAddress);
  }

  /** No batch ever locked anything in the token, or the contract pays itself. (The last disjunct is the
      corner where the total went negative and the holdings are the largest i128: the sweep then takes
      everything, which is harmless just when nothing is owed.) */
  ghost predicate SafeSweep(v: Vault, t: Address, recipient: Address) {
    BatchTotal(v, t) == 0 || recipient == EscrowAddress || (TotalLocked(v.e, t) < 0 && Live(v, t) == 0)
  }

  /** A sweep takes the excess over the running total. So it leaves the contract able to pay if and only
      if it is safe, and never touches other tokens. */
  lemma SweepSafeIff(v: Vault, caller: Address, t: Address, recipient: Address)
    requires Books(v) && Solvent(v)
    requires DoSweep(v, caller, t, recipient).Ok?
    ensures var w := DoSweep(v, caller, t, recipient).value;
            && (Covered(w, t) <==> SafeSweep(v, t, recipient))
            && (forall other :: other != t ==> Covered(w, other))
  {
    var w := DoSweep(v, caller, t, recipient).value;
    SweepEffect(v, caller, t, recipient);
    assert Covered(v, t);
    TotalsNonNegative(v, t);
    BalanceWithinSupply(v.ledger, t, EscrowAddress);
    forall other | other != t ensures Covered(w, other) {
      assert Covered(v, other);
    }
  }

  // ── Solvency over runs ──────────────────────────────────────────────────────

  /** A call is prudent unless it commits an unsafe sweep. */
  ghost predicate Prudent(v: Vault, call: EscrowCall) {
    call.Sweep? && DoSweep(v, call.caller, call.token, call.recipient).Ok? ==> SafeSweep(v, call.token, call.recipient)
  }

  lemma FundingSolvent(v: Vault, tick: EscrowTick)
    requires Books(v) && Solvent(v) && IsFunding(tick.call) && EscrowDo(v, tick.fleet, tick.now, tick.call).Ok?
    ensures Solvent(EscrowStep(v, tick))
  {
    match tick.call
    case CreateEscrow(sender, recipient, driver, id, token, amount, fleetId) =>
      CreateSolvent(v, tick.now, sender, recipient, driver, id, token, amount, fleetId);
    case CreateBatch(sender, recipient, token, items) => CreateAllSolvent(v, tick.now, sender, recipient, token, items);
  }

  lemma StampingSolvent(v: Vault, tick: EscrowTick)
    requires Solvent(v) && IsStamping(tick.call) && EscrowDo(v, tick.fleet, tick.now, tick.call).Ok?
    ensures Solvent(EscrowStep(v, tick))
  {
    var r := StampingIsStore(v, tick);
    if EscrowStep(v, tick) != v {
      StoreSolvent(v, tick.call.id, r);
    }
  }

  lemma SweepSolventIff(v: Vault, tick: EscrowTick)
    requires Books(v) && Solvent(v) && tick.call.Sweep? && EscrowDo(v, tick.fleet, tick.now, tick.call).Ok?
    ensures Solvent(EscrowStep(v, tick)) <==> SafeSweep(v, tick.call.token, tick.call.recipient)
  {
    SweepSafeIff(v, tick.call.caller, tick.call.token, tick.call.recipient);
  }

  lemma OtherSolvent(v: Vault, tick: EscrowTick)
    requires Solvent(v) && (tick.call.UpdateFee? || tick.call.Reconfigure? || tick.call.TokenTransfer?)
    requires EscrowDo(v, tick.fleet, tick.now, tick.call).Ok?
    ensures Solvent(EscrowStep(v, tick))
  {
    match tick.call
    case UpdateFee(caller, bps) => SameMoneySolvent(v, EscrowStep(v, tick));
    case Reconfigure(_, _, _, _, _) => SameMoneySolvent(v, EscrowStep(v, tick));
    case TokenTransfer(token, from, to, amount) => TokenTransferSolvent(v, token, from, to, amount);
  }

  /** A solvent contract stays so exactly if the call is prudent: only an unsafe sweep ever strands it. */
  lemma EscrowStepSolvent(v: Vault, tick: EscrowTick)
    requires Books(v) && Solvent(v)
    ensures Solvent(EscrowStep(v, tick)) <==> Prudent(v, tick.call)
  {
    if EscrowDo(v, tick.fleet, tick.now, tick.call).Ok? {
      if IsFunding(tick.call) {
        FundingSolvent(v, tick);
      } else if IsSettling(tick.call) {
        SettlingSolvent(v, tick);
      } else if IsStamping(tick.call) {
        StampingSolvent(v, tick);
      } else if tick.call.Sweep? {
        SweepSolventIff(v, tick);
      } else {
        OtherSolvent(v, tick);
      }
    }
  }

  ghost predicate PrudentRun(v: Vault, ticks: seq<EscrowTick>) {
    forall k :: 0 <= k < |ticks| ==> Prudent(EscrowRun(v, ticks[..k]), ticks[k].call)
  }

  lemma PrudentPrefix(v: Vault, ticks: seq<EscrowTick>, n: nat)
    requires PrudentRun(v, ticks) && n <= |ticks|
    ensures PrudentRun(v, ticks[..n])
  {
    var init := ticks[..n];
    forall k | 0 <= k < n ensures Prudent(EscrowRun(v, init[..k]), init[k].call) {
      assert init[..k] == ticks[..k];
      assert Prudent(EscrowRun(v, ticks[..k]), ticks[k].call);
    }
  }

  lemma InitiallySolvent(v: Vault)
    requires Initial(v)
    ensures Solvent(v)
  {
    forall token ensures Covered(v, token) {
      BalanceWithinSupply(v.ledger, token, EscrowAddress);
    }
  }

  /** Every prudent run, batches included, leaves the contract able to pay all it owes. */
  lemma {:induction false} EscrowRunSolvent(v: Vault, ticks: seq<EscrowTick>)
    requires Initial(v) && PrudentRun(v, ticks)
    ensures Solvent(EscrowRun(v, ticks))
    decreases |ticks|
  {
    if ticks == [] {
      InitiallySolvent(v);
    } else {
      var init := ticks[..|ticks| - 1];
      PrudentPrefix(v, ticks, |ticks| - 1);
      EscrowRunSolvent(v, init);
      EscrowRunBooks(v, init);
      EscrowStepSolvent(EscrowRun(v, init), ticks[|ticks| - 1]);
    }
  }

  ghost predicate AlwaysSolvent(v: Vault, ticks: seq<EscrowTick>) {
    forall k :: 0 <= k <= |ticks| ==> Solvent(EscrowRun(v, ticks[..k]))
  }

  lemma SolventMomentIsPrudent(v: Vault, ticks: seq<EscrowTick>, k: nat)
    requires Initial(v) && AlwaysSolvent(v, ticks) && k < |ticks|
    ensures Prudent(EscrowRun(v, ticks[..k]), ticks[k].call)
  {
    EscrowRunBooks(v, ticks[..k]);
    assert ticks[..k + 1][..k] == ticks[..k];
    assert Solvent(EscrowRun(v, ticks[..k])) && Solvent(EscrowRun(v, ticks[..k + 1]));
    EscrowStepSolvent(EscrowRun(v, ticks[..k]), ticks[k]);
  }

  /** A run keeps the contract solvent at every moment if and only if each sweep it commits is safe when
      it is made. */
  lemma AlwaysSolventIff(v: Vault, ticks: seq<EscrowTick>)
    requires Initial(v)
    ensures AlwaysSolvent(v, ticks) <==> PrudentRun(v, ticks)
  {
    if AlwaysSolvent(v, ticks) {
      forall k | 0 <= k < |ticks| ensures Prudent(EscrowRun(v, ticks[..k]), ticks[k].call) {
        SolventMomentIsPrudent(v, ticks, k);
      }
    } else if PrudentRun(v, ticks) {
      forall k | 0 <= k <= |ticks| ensures Solvent(EscrowRun(v, ticks[..k])) {
        PrudentPrefix(v, ticks, k);
        EscrowRunSolvent(v, ticks[..k]);
      }
    }
  }

  lemma BatchedKept(v: Vault, tick: EscrowTick)
    requires !tick.call.CreateBatch?
    ensures EscrowStep(v, tick).audit.batched == v.audit.batched
  {
    if EscrowDo(v, tick.fleet, tick.now, tick.call).Ok? {
      if IsSettling(tick.call) {
        var u, ps := SettlingIsClose(v, tick);
      } else if IsStamping(tick.call) {
        var r := StampingIsStore(v, tick);
      } else if !IsFunding(tick.call) {
        OthersKeepRecords(v, tick);
      }
    }
  }

  lemma {:induction false} NoBatches(v: Vault, ticks: seq<EscrowTick>)
    requires Initial(v)
    requires forall k :: 0 <= k < |ticks| ==> !ticks[k].call.CreateBatch?
    ensures EscrowRun(v, ticks).audit.batched == {}
    decreases |ticks|
  {
    if ticks != [] {
      NoBatches(v, ticks[..|ticks| - 1]);
      BatchedKept(EscrowRun(v, ticks[..|ticks| - 1]), ticks[|ticks| - 1]);
    }
  }

  lemma NoBatchTotal(v: Vault, token: Address)
    requires v.audit.batched == {}
    ensures BatchTotal(v, token) == 0
  {
    TotalNonNegative(v.e.records, BatchWeight({}, token));
    TotalLe(v.e.records, BatchWeight({}, token), (id: nat, r: EscrowRecord) => 0);
    ZeroTotal(v.e.records);
  }

  lemma {:induction false} ZeroTotal(records: map<nat, EscrowRecord>)
    ensures Total(records, (id: nat, r: EscrowRecord) => 0) == 0
    decreases |records|
  {
    if records != map[] {
      ZeroTotal(records - {Pick(records)});
    }
  }

  /** Without batches every run, sweeps included, keeps the books balanced to the unit: the
      contract holds at least what it owes, which is what its running total says. As that total
      never leaves [0, supply], the saturating arithmetic on it never saturates. */
  lemma SolvencyWithoutBatches(v: Vault, ticks: seq<EscrowTick>, token: Address)
    requires Initial(v)
    requires forall k :: 0 <= k < |ticks| ==> !ticks[k].call.CreateBatch?
    ensures var w := EscrowRun(v, ticks);
            0 <= TotalLocked(w.e, token) == Live(w, token) <= Held(w, token) <= Supply(w.ledger, token) <= I128_MAX
  {
    forall k | 0 <= k < |ticks| ensures Prudent(EscrowRun(v, ticks[..k]), ticks[k].call) {
      NoBatches(v, ticks[..k]);
      if ticks[k].call.Sweep? {
        NoBatchTotal(EscrowRun(v, ticks[..k]), ticks[k].call.token);
      }
    }
    var w := EscrowRun(v, ticks);
    EscrowRunSolvent(v, ticks);
    EscrowRunBooks(v, ticks);
    NoBatches(v, ticks);
    NoBatchTotal(w, token);
    assert Covered(w, token);
    TotalsNonNegative(w, token);
    BalanceWithinSupply(w.ledger, token, EscrowAddress);
  }

  /** Without sweeps every run keeps the contract able to pay, and its running total short of the
      debts by at most what batches locked. */
  lemma SolvencyWithoutSweeps(v: Vault, ticks: seq<EscrowTick>, token: Address)
    requires Initial(v)
    requires forall k :: 0 <= k < |ticks| ==> !ticks[k].call.Sweep?
    ensures var w := EscrowRun(v, ticks);
            && Live(w, token) - BatchTotal(w, token) <= TotalLocked(w.e, token) <= Live(w, token) <= Held(w, token)
            && (BatchTotal(w, token) <= -I128_MIN ==> TotalLocked(w.e, token) + BatchTotal(w, token) == Live(w, token))
  {
    EscrowRunSolvent(v, ticks);
    assert Covered(EscrowRun(v, ticks), token);
  }

  /** The failing family has a smallest member: lock 100 by a batch, sweep, and the contract owes
      100 but holds nothing, so that even the admin cannot refund. */
  lemma BatchThenSweepStrands(fleet: Fleet.FleetState)
    ensures var coin, admin, sender := Account(0), Account(1), Account(2);
            var v := Vault(EscrowState(admin, coin, 0, false, false, None, None, map[], map[], map[], map[]),
                           map[Holding(coin, sender) := 100], Audit([], {}, map[]));
            var ticks := [EscrowTick(0, fleet, CreateBatch(sender, Account(3), coin, [BatchItem(1, Account(4), 100)])),
                          EscrowTick(0, fleet, Sweep(admin, coin, admin))];
            var w := EscrowRun(v, ticks);
            && Initial(v)
            && Held(w, coin) == 0 && Live(w, coin) == 100
            && DoRefund(w, admin, 1) == Err(InsufficientFunds)
  {
    var coin, admin, sender := Account(0), Account(1), Account(2);
    var v := Vault(EscrowState(admin, coin, 0, false, false, None, None, map[], map[], map[], map[]),
                   map[Holding(coin, sender) := 100], Audit([], {}, map[]));
    var create := EscrowTick(0, fleet, CreateBatch(sender, Account(3), coin, [BatchItem(1, Account(4), 100)]));
    var sweep := EscrowTick(0, fleet, Sweep(admin, coin, admin));
    var none: map<nat, EscrowRecord> := map[];
    var empty: Ledger := map[];
    forall t ensures Supply(v.ledger, t) <= I128_MAX {
      TotalPut(empty, SupplyWeight(t), Holding(coin, sender), 100);
      assert v.ledger == empty[Holding(coin, sender) := 100];
    }
    assert [create, sweep][..1] == [create] && [create][..0] == [];
    var u := BatchOfOne(v, fleet);
    assert EscrowRun(v, [create]) == u;
    var w := SweepOfOne(u, fleet);
    assert EscrowRun(v, [create, sweep]) == w;
    TotalPut(none, LiveWeight(coin), 1, w.e.records[1]);
    assert w.e.records == none[1 := w.e.records[1]];
  }

  lemma SweepOfOne(u: Vault, fleet: Fleet.FleetState) returns (w: Vault)
    requires u.e.admin == Account(1) && u.e.totalLocked == map[]
    requires u.ledger == map[Holding(Account(0), Account(2)) := 0, Holding(Account(0), EscrowAddress) := 100]
    ensures w == EscrowStep(u, EscrowTick(0, fleet, Sweep(Account(1), Account(0), Account(1))))
    ensures w.e == u.e && Held(w, Account(0)) == 0
  {
    w := EscrowStep(u, EscrowTick(0, fleet, Sweep(Account(1), Account(0), Account(1))));
  }

  lemma BatchOfOne(v: Vault, fleet: Fleet.FleetState) returns (u: Vault)
    requires v.e.records == map[] && v.ledger == map[Holding(Account(0), Account(2)) := 100]
    ensures u == EscrowStep(v, EscrowTick(0, fleet, CreateBatch(Account(2), Account(3), Account(0), [BatchItem(1, Account(4), 100)])))
    ensures u.e.records == map[1 := EscrowRecord(Account(2), Account(3), Account(4), Account(0), 100, Locked, 0, Some(2_592_000), None, None, None)]
    ensures u.ledger == map[Holding(Account(0), Account(2)) := 0, Holding(Account(0), EscrowAddress) := 100]
    ensures u.e.admin == v.e.admin && u.e.totalLocked == v.e.totalLocked && u.e.paused == v.e.paused
  {
    var item := BatchItem(1, Account(4), 100);
    assert [item][..0] == [];
    assert LockAll(v, 0, Account(2), Account(3), Account(0), [item])
        == LockItem(v, 0, Account(2), Account(3), Account(0), item);
    u := EscrowStep(v, EscrowTick(0, fleet, CreateBatch(Account(2), Account(3), Account(0), [item])));
  }
}
