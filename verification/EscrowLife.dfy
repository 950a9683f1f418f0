/** The life of an escrow: its terms are fixed, its status only moves forward, it always has a way
    out, and the money that moved is accounted for holder by holder. */
module EscrowLife {
  import opened Prelude
  import opened Sums
  import opened Token
  import opened Fees
  import opened Escrow
  import opened EscrowBooks
  import opened EscrowSolvency
  import Fleet

  // ── Forward only ────────────────────────────────────────────────────────────

  function Rank(s: EscrowStatus): nat {
    match s
    case Locked => 3
    case Holdback => 2
    case Paused => 1
    case _ => 0
  }

  /** One escrow before and after: terms fixed, status equal or strictly further, and once closed
      neither the record nor its payments ever change. */
  ghost predicate Moves(v: Vault, w: Vault, id: nat)
    requires id in v.e.records
  {
    && id in w.e.records
    && SameTerms(v.e.records[id], w.e.records[id])
    && (w.e.records[id].status == v.e.records[id].status || Rank(w.e.records[id].status) < Rank(v.e.records[id].status))
    && (!IsLive(v.e.records[id].status) ==>
          w.e.records[id] == v.e.records[id]
          && (id in v.audit.paid ==> id in w.audit.paid && w.audit.paid[id] == v.audit.paid[id]))
  }

  ghost predicate Evolves(v: Vault, w: Vault) {
    && v.audit.created <= w.audit.created
    && forall id :: id in v.e.records ==> Moves(v, w, id)
  }

  lemma EvolvesTransitive(u: Vault, v: Vault, w: Vault)
    requires Evolves(u, v) && Evolves(v, w)
    ensures Evolves(u, w)
  {
    forall id | id in u.e.records ensures Moves(u, w, id) {
      assert Moves(u, v, id) && Moves(v, w, id);
    }
  }

  lemma CloseEvolves(v: Vault, id: nat, status: EscrowStatus, ps: seq<Payment>)
    requires id in v.e.records && IsLive(v.e.records[id].status) && !IsLive(status)
    ensures Evolves(v, Close(v, id, status, ps).OrElse(v))
  {
  }

  lemma LockEvolves(v: Vault, id: nat, r: EscrowRecord)
    ensures Evolves(v, Lock(v, id, r).OrElse(v))
  {
  }

  lemma {:induction false} LockAllEvolves(v: Vault, now: nat, sender: Address, recipient: Address, t: Address, items: seq<BatchItem>)
    ensures Evolves(v, LockAll(v, now, sender, recipient, t, items).OrElse(v))
    decreases |items|
  {
    if items != [] && LockAll(v, now, sender, recipient, t, items).Ok? {
      var init, last := items[..|items| - 1], items[|items| - 1];
      LockAllEvolves(v, now, sender, recipient, t, init);
      var u := LockAll(v, now, sender, recipient, t, init).value;
      LockEvolves(u, last.id, NewRecord(now, sender, recipient, last.driver, t, last.amount, None));
      EvolvesTransitive(v, u, LockAll(v, now, sender, recipient, t, items).value);
    }
  }

  lemma SettlingEvolves(v: Vault, tick: EscrowTick)
    requires IsSettling(tick.call) && EscrowDo(v, tick.fleet, tick.now, tick.call).Ok?
    ensures Evolves(v, EscrowStep(v, tick))
  {
    var u, ps := SettlingIsClose(v, tick);
    CloseEvolves(u, tick.call.id, FinalStatus(tick.call), ps);
  }

  lemma FundingEvolves(v: Vault, tick: EscrowTick)
    requires IsFunding(tick.call)
    ensures Evolves(v, EscrowStep(v, tick))
  {
    match tick.call
    case CreateEscrow(sender, recipient, driver, id, token, amount, fleetId) =>
      LockEvolves(v, id, NewRecord(tick.now, sender, recipient, driver, token, amount, fleetId));
    case CreateBatch(sender, recipient, token, items) => LockAllEvolves(v, tick.now, sender, recipient, token, items);
  }

  lemma StampingEvolves(v: Vault, tick: EscrowTick)
    requires IsStamping(tick.call)
    ensures Evolves(v, EscrowStep(v, tick))
  {
  }

  /** Every call moves every escrow forward or not at all. */
  lemma EscrowStepEvolves(v: Vault, tick: EscrowTick)
    ensures Evolves(v, EscrowStep(v, tick))
  {
    if EscrowDo(v, tick.fleet, tick.now, tick.call).Ok? {
      if IsFunding(tick.call) {
        FundingEvolves(v, tick);
      } else if IsSettling(tick.call) {
        SettlingEvolves(v, tick);
      } else if IsStamping(tick.call) {
        StampingEvolves(v, tick);
      } else {
        OthersKeepRecords(v, tick);
      }
    }
  }

  /** How often the status of an escrow changes during a run. */
  ghost function StatusChanges(v: Vault, ticks: seq<EscrowTick>, id: nat): nat
    decreases |ticks|
  {
    if ticks == [] then 0
    else
      var before := EscrowRun(v, ticks[..|ticks| - 1]);
      var after := EscrowRun(v, ticks);
      StatusChanges(v, ticks[..|ticks| - 1], id)
      + (if id in before.e.records && id in after.e.records && before.e.records[id].status != after.e.records[id].status then 1 else 0)
  }

  /** No escrow changes status more than three times, over any run whatsoever. */
  lemma {:induction false} LivesAreFinite(v: Vault, ticks: seq<EscrowTick>, id: nat)
    requires Initial(v)
    ensures StatusChanges(v, ticks, id) <=
            if id in EscrowRun(v, ticks).e.records then 3 - Rank(EscrowRun(v, ticks).e.records[id].status) else 0
    decreases |ticks|
  {
    if ticks != [] {
      var before := EscrowRun(v, ticks[..|ticks| - 1]);
      LivesAreFinite(v, ticks[..|ticks| - 1], id);
      EscrowStepEvolves(before, ticks[|ticks| - 1]);
      if id in before.e.records {
        assert Moves(before, EscrowRun(v, ticks), id);
      }
    }
  }

  // ── What moves a status ─────────────────────────────────────────────────────

  /** New locked escrows only. */
  ghost predicate Extends(v: Vault, u: Vault) {
    && u.e.disputeContract == v.e.disputeContract
    && (forall id :: id in v.e.records ==> id in u.e.records && u.e.records[id] == v.e.records[id])
    && (forall id :: id in u.e.records && id !in v.e.records ==> u.e.records[id].status == Locked)
  }

  lemma LockExtends(v: Vault, id: nat, r: EscrowRecord)
    requires r.status == Locked
    ensures Extends(v, Lock(v, id, r).OrElse(v))
  {
  }

  lemma {:induction false} LockAllExtends(v: Vault, now: nat, sender: Address, recipient: Address, t: Address, items: seq<BatchItem>)
    requires LockAll(v, now, sender, recipient, t, items).Ok?
    ensures Extends(v, LockAll(v, now, sender, recipient, t, items).value)
    decreases |items|
  {
    if items != [] {
      var last := items[|items| - 1];
      LockAllExtends(v, now, sender, recipient, t, items[..|items| - 1]);
      LockExtends(LockAll(v, now, sender, recipient, t, items[..|items| - 1]).value, last.id,
                  NewRecord(now, sender, recipient, last.driver, t, last.amount, None));
    }
  }

  /** Funding leaves the escrows there are alone, and new ones are locked. */
  lemma FundingExtends(v: Vault, tick: EscrowTick)
    requires IsFunding(tick.call) && EscrowDo(v, tick.fleet, tick.now, tick.call).Ok?
    ensures Extends(v, EscrowStep(v, tick))
  {
    match tick.call
    case CreateEscrow(sender, recipient, driver, id, token, amount, fleetId) =>
      LockExtends(v, id, NewRecord(tick.now, sender, recipient, driver, token, amount, fleetId));
    case CreateBatch(sender, recipient, token, items) => LockAllExtends(v, tick.now, sender, recipient, token, items);
  }

  lemma FundingReleasesNothing(v: Vault, tick: EscrowTick, id: nat)
    requires IsFunding(tick.call) && EscrowDo(v, tick.fleet, tick.now, tick.call).Ok?
    ensures IsReleased(EscrowStep(v, tick), id) ==> IsReleased(v, id)
  {
    FundingExtends(v, tick);
  }

  lemma SettlingReleasesOne(v: Vault, tick: EscrowTick, id: nat)
    requires IsSettling(tick.call) && EscrowDo(v, tick.fleet, tick.now, tick.call).Ok?
    ensures IsReleased(EscrowStep(v, tick), id) ==> IsReleased(v, id) || (IsRelease(tick.call) && tick.call.id == id)
  {
    var u, ps := SettlingIsClose(v, tick);
    CloseKeeps(u, tick.call.id, FinalStatus(tick.call), ps);
  }

  lemma StampingReleasesNothing(v: Vault, tick: EscrowTick, id: nat)
    requires IsStamping(tick.call) && EscrowDo(v, tick.fleet, tick.now, tick.call).Ok?
    ensures IsReleased(EscrowStep(v, tick), id) ==> IsReleased(v, id)
  {
    var r := StampingIsStore(v, tick);
  }

  predicate IsReleased(v: Vault, id: nat) {
    id in v.e.records && v.e.records[id].status == Released
  }

  /** The calls that change the status of escrow id when they commit, freezing aside. */
  predicate MovesStatus(call: EscrowCall, id: nat) {
    (IsSettling(call) || call.MarkHoldback? || call.RaiseDispute?) && call.id == id
  }

  lemma SettlingMoves(v: Vault, tick: EscrowTick, id: nat)
    requires IsSettling(tick.call) && EscrowDo(v, tick.fleet, tick.now, tick.call).Ok? && id in v.e.records
    ensures var w := EscrowStep(v, tick);
            id in w.e.records && (w.e.records[id].status != v.e.records[id].status <==> tick.call.id == id)
  {
    var u, ps := SettlingIsClose(v, tick);
    CloseKeeps(u, tick.call.id, FinalStatus(tick.call), ps);
  }

  lemma HoldbackMoves(v: Vault, caller: Address, about: nat, id: nat)
    requires DoMarkHoldback(v, caller, about).Ok? && id in v.e.records
    ensures var w := DoMarkHoldback(v, caller, about).value;
            id in w.e.records && (w.e.records[id].status != v.e.records[id].status <==> about == id)
  {
  }

  lemma DisputeMoves(v: Vault, now: nat, caller: Address, about: nat, id: nat)
    requires DoRaiseDispute(v, now, caller, about).Ok? && id in v.e.records
    ensures var w := DoRaiseDispute(v, now, caller, about).value;
            id in w.e.records && (w.e.records[id].status != v.e.records[id].status <==> about == id)
  {
  }

  lemma StampingMoves(v: Vault, tick: EscrowTick, id: nat)
    requires IsStamping(tick.call) && EscrowDo(v, tick.fleet, tick.now, tick.call).Ok? && id in v.e.records
    requires tick.call.FreezeFunds? ==> v.e.disputeContract != Some(tick.call.caller)
    ensures var w := EscrowStep(v, tick);
            id in w.e.records && (w.e.records[id].status != v.e.records[id].status <==> MovesStatus(tick.call, id))
  {
    match tick.call
    case MarkHoldback(caller, about) => HoldbackMoves(v, caller, about, id);
    case RaiseDispute(caller, about) => DisputeMoves(v, tick.now, caller, about, id);
    case FreezeFunds(_, _) =>
  }

  /** An escrow's status changes exactly by a committed call that names it, a freeze by the dispute
      contract aside. */
  lemma StatusMovesIff(v: Vault, tick: EscrowTick, id: nat)
    requires id in v.e.records
    requires tick.call.FreezeFunds? ==> v.e.disputeContract != Some(tick.call.caller)
    ensures var w := EscrowStep(v, tick);
            && id in w.e.records
            && (w.e.records[id].status != v.e.records[id].status <==>
                MovesStatus(tick.call, id) && EscrowDo(v, tick.fleet, tick.now, tick.call).Ok?)
  {
    if EscrowDo(v, tick.fleet, tick.now, tick.call).Ok? {
      if IsFunding(tick.call) {
        FundingExtends(v, tick);
      } else if IsSettling(tick.call) {
        SettlingMoves(v, tick, id);
      } else if IsStamping(tick.call) {
        StampingMoves(v, tick, id);
      } else {
        OthersKeepRecords(v, tick);
      }
    }
  }

  /** Nothing but a committed release of that very escrow makes it released. */
  lemma OnlyReleasesRelease(v: Vault, tick: EscrowTick, id: nat)
    requires IsReleased(EscrowStep(v, tick), id) && !IsReleased(v, id)
    ensures IsRelease(tick.call) && tick.call.id == id && EscrowDo(v, tick.fleet, tick.now, tick.call).Ok?
  {
    if EscrowDo(v, tick.fleet, tick.now, tick.call).Ok? {
      if IsFunding(tick.call) {
        FundingReleasesNothing(v, tick, id);
      } else if IsSettling(tick.call) {
        SettlingReleasesOne(v, tick, id);
      } else if IsStamping(tick.call) {
        StampingReleasesNothing(v, tick, id);
      } else {
        OthersKeepRecords(v, tick);
      }
    }
  }

  // ── Every token accounted for ───────────────────────────────────────────────

  /** What the records and their payments say a holder gained or lost. */
  function FlowWeight(paid: map<nat, seq<Payment>>, token: Address, holder: Address): (nat, EscrowRecord) -> int {
    (id: nat, r: EscrowRecord) =>
      if r.token != token then 0
      else (if id in paid then Received(paid[id], holder) else 0)
           - (if r.sender == holder then r.amount else 0)
           + (if holder == EscrowAddress then r.amount - (if id in paid then PaymentSum(paid[id]) else 0) else 0)
  }

  ghost function Flow(v: Vault, token: Address, holder: Address): int {
    Total(v.e.records, FlowWeight(v.audit.paid, token, holder))
  }

  /** The holder's balance changed by what the records and payments say. */
  ghost predicate Accounted(v: Vault, w: Vault, token: Address, holder: Address) {
    Balance(w.ledger, token, holder) - Balance(v.ledger, token, holder) == Flow(w, token, holder) - Flow(v, token, holder)
  }

  lemma FlowOfFresh(records: map<nat, EscrowRecord>, paid: map<nat, seq<Payment>>, id: nat, r: EscrowRecord,
                    token: Address, holder: Address)
    requires id !in records
    ensures Total(records[id := r], FlowWeight(paid[id := []], token, holder)) ==
            Total(records, FlowWeight(paid, token, holder))
            + (if r.token == token then (if holder == EscrowAddress then r.amount else 0) - (if holder == r.sender then r.amount else 0) else 0)
  {
    TotalUpdate(records, FlowWeight(paid, token, holder), FlowWeight(paid[id := []], token, holder), id, r);
  }

  lemma LockFlow(v: Vault, id: nat, r: EscrowRecord, token: Address, holder: Address)
    requires Lock(v, id, r).Ok?
    ensures Accounted(v, Lock(v, id, r).value, token, holder)
  {
    TransferEffect(v.ledger, r.token, r.sender, EscrowAddress, r.amount);
    FlowOfFresh(v.e.records, v.audit.paid, id, r, token, holder);
  }

  lemma FlowAfter(records: map<nat, EscrowRecord>, paid: map<nat, seq<Payment>>, id: nat, r: EscrowRecord, ps: seq<Payment>,
                  token: Address, holder: Address)
    requires id in records && SameTerms(records[id], r) && id in paid && paid[id] == []
    ensures Total(records[id := r], FlowWeight(paid[id := ps], token, holder)) ==
            Total(records, FlowWeight(paid, token, holder))
            + (if r.token == token then Received(ps, holder) - (if holder == EscrowAddress then PaymentSum(ps) else 0) else 0)
  {
    TotalUpdate(records, FlowWeight(paid, token, holder), FlowWeight(paid[id := ps], token, holder), id, r);
  }

  lemma CloseFlow(v: Vault, id: nat, status: EscrowStatus, ps: seq<Payment>, token: Address, holder: Address)
    requires id in v.e.records && id in v.audit.paid && v.audit.paid[id] == [] && Close(v, id, status, ps).Ok?
    ensures Accounted(v, Close(v, id, status, ps).value, token, holder)
  {
    var r := v.e.records[id];
    CloseKeeps(v, id, status, ps);
    PayAllEffect(v.ledger, r.token, ps);
    assert [] + ps == ps;
    FlowAfter(v.e.records, v.audit.paid, id, r.(status := status), ps, token, holder);
  }

  lemma StoreFlow(v: Vault, id: nat, r: EscrowRecord, token: Address, holder: Address)
    requires id in v.e.records && SameTerms(v.e.records[id], r)
    ensures Flow(Store(v, id, r), token, holder) == Flow(v, token, holder)
  {
    TotalPut(v.e.records, FlowWeight(v.audit.paid, token, holder), id, r);
  }

  lemma {:induction false} LockAllFlow(v: Vault, now: nat, sender: Address, recipient: Address, t: Address, items: seq<BatchItem>,
                                       token: Address, holder: Address)
    requires LockAll(v, now, sender, recipient, t, items).Ok?
    ensures Accounted(v, LockAll(v, now, sender, recipient, t, items).value, token, holder)
    decreases |items|
  {
    if items != [] {
      var init, last := items[..|items| - 1], items[|items| - 1];
      LockAllFlow(v, now, sender, recipient, t, init, token, holder);
      LockFlow(LockAll(v, now, sender, recipient, t, init).value, last.id,
               NewRecord(now, sender, recipient, last.driver, t, last.amount, None), token, holder);
    }
  }

  /** Counting a delivery moves no money. */
  lemma CountingAccounted(v: Vault, u: Vault, w: Vault, token: Address, holder: Address)
    requires u == v.(e := v.e.(senderVolume := u.e.senderVolume)) && Accounted(u, w, token, holder)
    ensures Accounted(v, w, token, holder)
  {
  }

  lemma SettlingAccounted(v: Vault, tick: EscrowTick, token: Address, holder: Address)
    requires PaidSound(v) && IsSettling(tick.call) && EscrowDo(v, tick.fleet, tick.now, tick.call).Ok?
    ensures Accounted(v, EscrowStep(v, tick), token, holder)
  {
    var u, ps := SettlingIsClose(v, tick);
    assert Settled(v.e.records[tick.call.id], v.audit.paid[tick.call.id]);
    CloseFlow(u, tick.call.id, FinalStatus(tick.call), ps, token, holder);
    CountingAccounted(v, u, EscrowStep(v, tick), token, holder);
  }

  lemma FundingAccounted(v: Vault, tick: EscrowTick, token: Address, holder: Address)
    requires (tick.call.CreateEscrow? || tick.call.CreateBatch?) && EscrowDo(v, tick.fleet, tick.now, tick.call).Ok?
    ensures Accounted(v, EscrowStep(v, tick), token, holder)
  {
    match tick.call
    case CreateEscrow(sender, recipient, driver, id, t, amount, fleetId) =>
      LockFlow(v, id, NewRecord(tick.now, sender, recipient, driver, t, amount, fleetId), token, holder);
    case CreateBatch(sender, recipient, t, items) => LockAllFlow(v, tick.now, sender, recipient, t, items, token, holder);
  }

  /** A transfer's effect on one balance. */
  function Shift(from: Address, to: Address, amount: int, holder: Address): int {
    (if holder == to then amount else 0) - (if holder == from then amount else 0)
  }

  /** What a sweep or a transfer between outsiders moves to the holder; every other call moves nothing this way. */
  function MovedOutside(v: Vault, tick: EscrowTick, token: Address, holder: Address): int {
    if EscrowDo(v, tick.fleet, tick.now, tick.call).Err? then 0
    else match tick.call
      case Sweep(_, t, recipient) =>
        if t == token && Held(v, t) > TotalLocked(v.e, t)
        then Shift(EscrowAddress, recipient, Min(I128_MAX, Held(v, t) - TotalLocked(v.e, t)), holder) else 0
      case TokenTransfer(t, from, to, amount) => if t == token then Shift(from, to, amount, holder) else 0
      case _ => 0
  }

  lemma SweepAccounted(v: Vault, tick: EscrowTick, token: Address, holder: Address)
    requires tick.call.Sweep? && EscrowDo(v, tick.fleet, tick.now, tick.call).Ok?
    ensures Balance(EscrowStep(v, tick).ledger, token, holder) - Balance(v.ledger, token, holder) == MovedOutside(v, tick, token, holder)
  {
    var t := tick.call.token;
    if Held(v, t) > TotalLocked(v.e, t) {
      TransferEffect(v.ledger, t, EscrowAddress, tick.call.recipient, SatSub(Held(v, t), TotalLocked(v.e, t)));
    }
  }

  lemma TransferAccounted(v: Vault, tick: EscrowTick, token: Address, holder: Address)
    requires tick.call.TokenTransfer? && EscrowDo(v, tick.fleet, tick.now, tick.call).Ok?
    ensures Balance(EscrowStep(v, tick).ledger, token, holder) - Balance(v.ledger, token, holder) == MovedOutside(v, tick, token, holder)
  {
    TransferEffect(v.ledger, tick.call.token, tick.call.from, tick.call.to, tick.call.amount);
  }

  lemma StampingAccounted(v: Vault, tick: EscrowTick, token: Address, holder: Address)
    requires IsStamping(tick.call) && EscrowDo(v, tick.fleet, tick.now, tick.call).Ok?
    ensures Accounted(v, EscrowStep(v, tick), token, holder)
  {
    var r := StampingIsStore(v, tick);
    StoreFlow(v, tick.call.id, r, token, holder);
  }

  /** Every balance of every holder changes, in every call, by exactly what the records and their
      payments say - deposits by senders, payments to payees, and the contract holding the
      difference - and what a sweep or an outside transfer moves besides. */
  lemma EveryTokenAccountedFor(v: Vault, tick: EscrowTick, token: Address, holder: Address)
    requires Books(v)
    ensures var w := EscrowStep(v, tick);
            Balance(w.ledger, token, holder) - Balance(v.ledger, token, holder)
            == Flow(w, token, holder) - Flow(v, token, holder) + MovedOutside(v, tick, token, holder)
    ensures !tick.call.Sweep? && !tick.call.TokenTransfer? ==> MovedOutside(v, tick, token, holder) == 0
  {
    if EscrowDo(v, tick.fleet, tick.now, tick.call).Ok? {
      if IsFunding(tick.call) {
        FundingAccounted(v, tick, token, holder);
      } else if IsSettling(tick.call) {
        SettlingAccounted(v, tick, token, holder);
      } else if IsStamping(tick.call) {
        StampingAccounted(v, tick, token, holder);
      } else {
        OthersKeepRecords(v, tick);
        if tick.call.Sweep? {
          SweepAccounted(v, tick, token, holder);
        } else if tick.call.TokenTransfer? {
          TransferAccounted(v, tick, token, holder);
        }
      }
    }
  }

  /** The supply of every token is constant over every run. */
  lemma {:induction false} SupplyIsConstant(v: Vault, ticks: seq<EscrowTick>, token: Address)
    requires Initial(v)
    ensures Supply(EscrowRun(v, ticks).ledger, token) == Supply(v.ledger, token)
    decreases |ticks|
  {
    if ticks != [] {
      var before := EscrowRun(v, ticks[..|ticks| - 1]);
      SupplyIsConstant(v, ticks[..|ticks| - 1], token);
      EscrowStepSupply(before, ticks[|ticks| - 1], token);
    }
  }

  lemma {:induction false} LockAllSupply(v: Vault, now: nat, sender: Address, recipient: Address, t: Address, items: seq<BatchItem>, token: Address)
    requires LockAll(v, now, sender, recipient, t, items).Ok?
    ensures Supply(LockAll(v, now, sender, recipient, t, items).value.ledger, token) == Supply(v.ledger, token)
    decreases |items|
  {
    if items != [] {
      var init, last := items[..|items| - 1], items[|items| - 1];
      LockAllSupply(v, now, sender, recipient, t, init, token);
      TransferEffect(LockAll(v, now, sender, recipient, t, init).value.ledger, t, sender, EscrowAddress, last.amount);
    }
  }

  lemma CloseSupply(v: Vault, id: nat, status: EscrowStatus, ps: seq<Payment>, token: Address)
    requires id in v.e.records && Close(v, id, status, ps).Ok?
    ensures Supply(Close(v, id, status, ps).value.ledger, token) == Supply(v.ledger, token)
  {
    PayAllEffect(v.ledger, v.e.records[id].token, ps);
  }

  lemma SettlingSupply(v: Vault, tick: EscrowTick, token: Address)
    requires IsSettling(tick.call) && EscrowDo(v, tick.fleet, tick.now, tick.call).Ok?
    ensures Supply(EscrowStep(v, tick).ledger, token) == Supply(v.ledger, token)
  {
    var u, ps := SettlingIsClose(v, tick);
    CloseSupply(u, tick.call.id, FinalStatus(tick.call), ps, token);
  }

  lemma OtherSupply(v: Vault, tick: EscrowTick, token: Address)
    requires !IsSettling(tick.call) && EscrowDo(v, tick.fleet, tick.now, tick.call).Ok?
    ensures Supply(EscrowStep(v, tick).ledger, token) == Supply(v.ledger, token)
  {
    match tick.call
    case CreateEscrow(sender, recipient, driver, id, t, amount, fleetId) =>
      TransferEffect(v.ledger, t, sender, EscrowAddress, amount);
    case CreateBatch(sender, recipient, t, items) => LockAllSupply(v, tick.now, sender, recipient, t, items, token);
    case Sweep(caller, t, recipient) =>
      if Held(v, t) > TotalLocked(v.e, t) {
        TransferEffect(v.ledger, t, EscrowAddress, recipient, SatSub(Held(v, t), TotalLocked(v.e, t)));
      }
    case TokenTransfer(t, from, to, amount) => TransferEffect(v.ledger, t, from, to, amount);
    case _ =>
  }

  lemma EscrowStepSupply(v: Vault, tick: EscrowTick, token: Address)
    ensures Supply(EscrowStep(v, tick).ledger, token) == Supply(v.ledger, token)
  {
    if EscrowDo(v, tick.fleet, tick.now, tick.call).Ok? {
      if IsSettling(tick.call) {
        SettlingSupply(v, tick, token);
      } else {
        OtherSupply(v, tick, token);
      }
    }
  }

  // ── Never stuck ─────────────────────────────────────────────────────────────

  lemma ReleaseGoesThrough(v: Vault, fleet: Fleet.FleetState, id: nat)
    requires RecordsSound(v) && Fleet.FleetInv(fleet)
    requires id in v.e.records && v.e.records[id].amount <= Held(v, v.e.records[id].token)
    ensures PayDriver(v, fleet, id).Ok?
  {
    var r := v.e.records[id];
    if r.fleetId.Some? {
      Fleet.PayoutAlwaysRouted(fleet, r.driver, r.fleetId.value);
    }
    var payee := Payee(v.e, fleet, r).value;
    ReleaseSettled(r.amount, v.e.feeBps, payee, v.e.admin);
    PayAllSucceeds(v.ledger, r.token, ReleaseShares(r.amount, v.e.feeBps, payee, v.e.admin));
  }

  lemma RefundGoesThrough(v: Vault, id: nat)
    requires RecordsSound(v) && id in v.e.records && v.e.records[id].amount <= Held(v, v.e.records[id].token)
    ensures ReturnToSender(v, id).Ok?
  {
    var r := v.e.records[id];
    var refund := [Payment(r.sender, r.amount)];
    assert refund[1..] == [];
    PayAllSucceeds(v.ledger, r.token, refund);
  }

  lemma SplitGoesThrough(v: Vault, id: nat, bps: nat)
    requires RecordsSound(v) && id in v.e.records && v.e.records[id].amount <= Held(v, v.e.records[id].token)
    requires bps <= BPS
    ensures Close(v, id, Split, SplitPayments(v.e.records[id], bps)).Ok?
  {
    SplitSettled(v.e.records[id], bps);
    PayAllSucceeds(v.ledger, v.e.records[id].token, SplitPayments(v.e.records[id], bps));
  }

  /** The contract holds the amount of every live escrow. */
  lemma LiveIsHeld(v: Vault, id: nat)
    requires Books(v) && Solvent(v) && id in v.e.records && IsLive(v.e.records[id].status)
    ensures Held(v, v.e.records[id].token) >= v.e.records[id].amount
  {
    assert Covered(v, v.e.records[id].token);
    LiveAmountIsHeld(v, id);
  }

  /** In a solvent state every payout of a live escrow goes through. */
  lemma PayoutsGoThrough(v: Vault, fleet: Fleet.FleetState, id: nat)
    requires Books(v) && Solvent(v) && Fleet.FleetInv(fleet)
    requires id in v.e.records && IsLive(v.e.records[id].status)
    ensures Held(v, v.e.records[id].token) >= v.e.records[id].amount
    ensures PayDriver(v, fleet, id).Ok?
    ensures ReturnToSender(v, id).Ok?
    ensures forall bps: nat :: bps <= BPS ==> Close(v, id, Split, SplitPayments(v.e.records[id], bps)).Ok?
  {
    LiveIsHeld(v, id);
    ReleaseGoesThrough(v, fleet, id);
    RefundGoesThrough(v, id);
    forall bps: nat | bps <= BPS ensures Close(v, id, Split, SplitPayments(v.e.records[id], bps)).Ok? {
      SplitGoesThrough(v, id, bps);
    }
  }

  /** In a solvent state a payout call succeeds exactly when the switch, the caller and the status
      allow it: no funds check, transfer or fleet lookup ever stands in the way. */
  lemma PayoutSucceedsIff(v: Vault, fleet: Fleet.FleetState, caller: Address, id: nat)
    requires Books(v) && Solvent(v) && Fleet.FleetInv(fleet) && id in v.e.records
    ensures var r, admin, running := v.e.records[id], caller == v.e.admin, !v.e.paused;
            && (DoRelease(v, fleet, caller, id).Ok? <==> running && (admin || caller == r.recipient) && r.status == Locked)
            && (DoReleaseHoldback(v, fleet, caller, id).Ok? <==> (admin || caller == r.recipient) && r.status == Holdback)
            && (DoResolveDispute(v, fleet, caller, id, true).Ok? <==> running && admin && r.status == Paused)
  {
    if IsLive(v.e.records[id].status) {
      LiveIsHeld(v, id);
      ReleaseGoesThrough(v, fleet, id);
    }
  }

  /** The same for the ways back to the sender; the expiry route ignores the pause switch. */
  lemma RefundSucceedsIff(v: Vault, fleet: Fleet.FleetState, now: nat, caller: Address, id: nat)
    requires Books(v) && Solvent(v) && id in v.e.records
    ensures var r, admin, running := v.e.records[id], caller == v.e.admin, !v.e.paused;
            && (DoRefund(v, caller, id).Ok? <==> running && (admin || caller == r.sender) && IsLive(r.status))
            && (DoResolveDispute(v, fleet, caller, id, false).Ok? <==> running && admin && r.status == Paused)
            && (DoReclaimExpired(v, now, id).Ok? <==> r.status == Locked && now > Min(U64_MAX, r.createdAt + 2_592_000))
  {
    if IsLive(v.e.records[id].status) {
      LiveIsHeld(v, id);
      RefundGoesThrough(v, id);
    }
  }

  /** And for a split. */
  lemma SplitSucceedsIff(v: Vault, caller: Address, id: nat, bps: nat)
    requires Books(v) && Solvent(v) && id in v.e.records
    ensures DoResolveSplit(v, caller, id, bps).Ok? <==>
            !v.e.paused && caller == v.e.admin && bps <= BPS && v.e.records[id].status == Paused
  {
    if IsLive(v.e.records[id].status) && bps <= BPS {
      LiveIsHeld(v, id);
      SplitGoesThrough(v, id, bps);
    }
  }

  /** The admin of an unpaused contract can refund the escrow while it is live, and anybody can reclaim it
      while it is locked, once more than thirty days have passed since its creation. */
  predicate HasWayOut(w: Vault, id: nat, now: nat)
    requires id in w.e.records
  {
    var r := w.e.records[id];
    && (IsLive(r.status) && !w.e.paused ==> DoRefund(w, w.e.admin, id).Ok?)
    && (r.status == Locked && now > Min(U64_MAX, r.createdAt + 2_592_000) ==> DoReclaimExpired(w, now, id).Ok?)
  }

  lemma WayOut(w: Vault, id: nat, now: nat)
    requires Books(w) && Solvent(w) && id in w.e.records
    ensures HasWayOut(w, id, now)
  {
    RefundSucceedsIff(w, Fleet.EmptyFleets(w.e.admin), now, w.e.admin, id);
  }

  /** From every reachable solvent state every escrow has its way out, the expiry route whether or not
      the contract is paused. */
  lemma NeverStuck(v: Vault, ticks: seq<EscrowTick>, id: nat, now: nat)
    requires Initial(v) && Solvent(EscrowRun(v, ticks))
    ensures id in EscrowRun(v, ticks).e.records ==> HasWayOut(EscrowRun(v, ticks), id, now)
  {
    EscrowRunBooks(v, ticks);
    if id in EscrowRun(v, ticks).e.records {
      WayOut(EscrowRun(v, ticks), id, now);
    }
  }

  // ── Index agreement ─────────────────────────────────────────────────────────

  /** In every reachable state each index list holds exactly the ids whose record names the
      address, each once, in creation order. */
  lemma IndexesExact(v: Vault, ticks: seq<EscrowTick>, key: IndexKey)
    requires Initial(v)
    ensures var w := EscrowRun(v, ticks);
            && Ids(w.e.index, key) == Naming(w.audit.created, w.e.records, key)
            && Distinct(Ids(w.e.index, key))
            && (forall id :: id in Ids(w.e.index, key) <==> id in w.e.records && Matches(w.e.records[id], key))
  {
    var w := EscrowRun(v, ticks);
    EscrowRunBooks(v, ticks);
    NamingExact(w.audit.created, w.e.records, key);
  }
}
